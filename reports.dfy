/**
 * The report tabs (AdvancedReports.tsx): four fixed SQL reports, the active
 * tab, the fetched rows and a loading flag, and the generic table that renders
 * whatever records arrive. Every settled request clears the loading flag and a
 * parsed body replaces the data, whichever tab it was fetched for.
 */
module AdvancedReports {
  import opened Json
  import opened Js

  const BaseUrl := "http://localhost:8000"

  datatype Report = Report(id: string, caption: string, url: string)

  /** The `reports` table, in display order. */
  const Reports: seq<Report> := [
    Report("torcedores", "1.2 Torcedores", "/api/relatorios/torcedores"),
    Report("violencia", "1.3 Jogos Violentos", "/api/relatorios/violencia"),
    Report("indecisos", "1.4 Usuários Indecisos", "/api/relatorios/indecisos"),
    Report("pacificos", "1.6 Árbitros Pacíficos", "/api/relatorios/pacificos")
  ]

  predicate IsReportId(id: string) {
    exists i :: 0 <= i < |Reports| && Reports[i].id == id
  }

  /** `reports.find(r => r.id === activeTab)`. */
  function ReportFor(id: string): Option<Report>
  {
    Find(Reports, (r: Report) => r.id == id)
  }

  /** Each report's URL is its id under /api/relatorios/, and the ids are distinct. */
  lemma ReportUrls()
    ensures forall i :: 0 <= i < |Reports| ==> Reports[i].url == "/api/relatorios/" + Reports[i].id
    ensures forall i, j :: 0 <= i < j < |Reports| ==> Reports[i].id != Reports[j].id
  {
  }

  /** A tab button: its key, whether it is highlighted, its caption. */
  datatype TabButton = TabButton(key: string, active: bool, caption: string)

  /** `reports.map(tab => <button …>)`. */
  function Tabs(activeTab: string): (tabs: seq<TabButton>)
    ensures |tabs| == |Reports|
    ensures forall i :: 0 <= i < |Reports| ==>
      tabs[i].key == Reports[i].id && tabs[i].caption == Reports[i].caption
  {
    seq(|Reports|, i requires 0 <= i < |Reports| =>
      TabButton(Reports[i].id, activeTab == Reports[i].id, Reports[i].caption))
  }

  /** A tab is highlighted exactly when it is the active one; for a report id that is exactly one tab. */
  lemma HighlightedTab(activeTab: string)
    ensures forall i :: 0 <= i < |Reports| ==> (Tabs(activeTab)[i].active <==> Reports[i].id == activeTab)
    ensures IsReportId(activeTab) ==> exists i :: 0 <= i < |Reports| && Tabs(activeTab)[i].active
    ensures forall i, j :: (0 <= i < |Reports| && 0 <= j < |Reports| && Tabs(activeTab)[i].active
              && Tabs(activeTab)[j].active) ==> i == j
  {
    ReportUrls();
  }

  predicate IsUnderscore(c: char) { c == '_' }

  /** `key.replace('_', ' ')`: a string pattern replaces its first occurrence only. */
  function ReplaceFirst(key: string): (r: string)
    ensures |r| == |key|
    ensures forall i :: 0 <= i < |key| ==>
      r[i] == if key[i] == '_' && '_' !in key[..i] then ' ' else key[i]
  {
    var k := FirstIndex(key, IsUnderscore);
    if k == |key| then key else key[..k] + " " + key[k + 1..]
  }

  /** Replacing at the first underscore: the text before it, a space, and the rest untouched. */
  lemma ReplaceFirstAt(key: string, k: nat)
    requires k < |key| && key[k] == '_' && '_' !in key[..k]
    ensures ReplaceFirst(key) == key[..k] + " " + key[k + 1..]
  {
    assert key[..k + 1][k] == '_';
  }

  /** A name without an underscore is shown as it is. */
  lemma ReplaceFirstWithoutUnderscore(key: string)
    requires '_' !in key
    ensures ReplaceFirst(key) == key
  {
  }

  /**
   * Only the first underscore of a column name becomes a space: a name made of
   * an underscore-free head, '_' and any tail shows the head, a space and the
   * tail with its own underscores ("total_de_cartoes" shows as "total de_cartoes").
   */
  lemma ReplaceFirstKeepsLaterUnderscores(head: string, tail: string)
    requires '_' !in head
    ensures ReplaceFirst(head + "_" + tail) == head + " " + tail
  {
    var key := head + "_" + tail;
    assert key[..|head|] == head;
    assert key[|head| + 1..] == tail;
    ReplaceFirstAt(key, |head|);
  }

  /** `Object.keys(v)`; None where it throws (on null and `undefined`). */
  function ObjectKeys(v: Option<Value>): (keys: Option<seq<string>>)
    ensures keys.None? <==> v.None? || v.value.Null?
  {
    match v
    case None => None
    case Some(Null) => None
    case Some(Bool(_)) => Some([])
    case Some(Num(_)) => Some([])
    case Some(Str(s)) => Some(seq(|s|, i => DecimalText(i)))
    case Some(Arr(items)) => Some(seq(|items|, i => DecimalText(i)))
    case Some(Obj(fields)) => Some(Keys(fields))
  }

  /** `Object.values(v)`; None where it throws (on null). */
  function ObjectValues(v: Value): (vals: Option<seq<Value>>)
    ensures vals.None? <==> v.Null?
  {
    match v
    case Null => None
    case Bool(_) => Some([])
    case Num(_) => Some([])
    case Str(s) => Some(seq(|s|, i requires 0 <= i < |s| => Str([s[i]])))
    case Arr(items) => Some(items)
    case Obj(fields) => Some(Values(fields))
  }

  /** `data.map(row => Object.values(row))`: None as soon as one row is null. */
  function RowCells(items: seq<Value>): (rows: Option<seq<seq<Value>>>)
    ensures rows.None? <==> exists i :: 0 <= i < |items| && items[i].Null?
    ensures rows.Some? ==> |rows.value| == |items|
    ensures rows.Some? ==> forall i :: 0 <= i < |items| ==> rows.value[i] == ObjectValues(items[i]).value
  {
    if items == [] then Some([])
    else if items[0].Null? then None
    else
      var rest := RowCells(items[1..]);
      if rest.None? then
        assert exists i :: 1 <= i < |items| && items[i].Null? by {
          var j :| 0 <= j < |items[1..]| && items[1..][j].Null?;
          assert items[j + 1].Null?;
        }
        None
      else
        assert forall i :: 1 <= i < |items| ==> items[i] == items[1..][i - 1];
        Some([ObjectValues(items[0]).value] + rest.value)
  }

  /** What the result card shows. `RenderError` is a render that throws. */
  datatype ReportView =
    | Loading
    | NoRecords
    | Table(header: seq<string>, rows: seq<seq<Value>>)
    | RenderError

  /** The header row: the keys of the first record, each with its first '_' replaced. */
  function Header(keys: seq<string>): (h: seq<string>)
    ensures |h| == |keys| && forall j :: 0 <= j < |keys| ==> h[j] == ReplaceFirst(keys[j])
  {
    seq(|keys|, j requires 0 <= j < |keys| => ReplaceFirst(keys[j]))
  }

  /** The result card for a state: loading first, then `data.length === 0`, then the table. */
  function View(loading: bool, data: Value): ReportView
  {
    if loading then Loading
    else match data
      case Arr(items) =>
        if |items| == 0 then NoRecords
        else (match (ObjectKeys(Some(items[0])), RowCells(items))
          case (Some(keys), Some(rows)) => Table(Header(keys), rows)
          case _ => RenderError)
      case Str(s) =>
        // `data[0]` is a character, but a string has no `map`
        if |s| == 0 then NoRecords else RenderError
      case Obj(fields) =>
        // an object has no `map`; `length` is whatever property it carries
        if Lookup(fields, "length") == Some(Num(0)) then NoRecords else RenderError
      case _ =>
        // `null.length` throws; a number or boolean has no `length` and `data[0]` is `undefined`
        RenderError
  }

  predicate IsRecords(items: seq<Value>) {
    forall i :: 0 <= i < |items| ==> items[i].Obj?
  }

  /**
   * For a list of records: the loading message whatever the data, the empty
   * message for no records, otherwise the first record's keys as header and
   * one row per record, in order, of that record's own values.
   */
  lemma ViewOfRecords(loading: bool, items: seq<Value>)
    requires IsRecords(items)
    ensures loading ==> View(loading, Arr(items)) == Loading
    ensures !loading && items == [] ==> View(loading, Arr(items)) == NoRecords
    ensures !loading && items != [] ==>
      var v := View(loading, Arr(items));
      v.Table? && v.header == Header(Keys(items[0].fields)) &&
      |v.rows| == |items| && forall i :: 0 <= i < |items| ==> v.rows[i] == Values(items[i].fields)
  {
  }

  /** Cells are not aligned to the header: a record with fewer or reordered keys gives fewer or reordered cells. */
  lemma CellsFollowEachRecord()
    ensures View(false, Arr([Obj([("a", Num(1)), ("b", Num(2))]), Obj([("a", Num(3))])]))
      == Table(["a", "b"], [[Num(1), Num(2)], [Num(3)]])
    ensures View(false, Arr([Obj([("a", Num(1)), ("b", Num(2))]), Obj([("b", Num(3)), ("a", Num(4))])]))
      == Table(["a", "b"], [[Num(1), Num(2)], [Num(3), Num(4)]])
  {
    var ab: Fields := [("a", Num(1)), ("b", Num(2))];
    assert Keys(ab) == ["a", "b"] && Values(ab) == [Num(1), Num(2)];
    ReplaceFirstWithoutUnderscore("a");
    ReplaceFirstWithoutUnderscore("b");
    assert Header(["a", "b"]) == ["a", "b"];
    var a: Fields := [("a", Num(3))];
    assert Values(a) == [Num(3)];
    ViewOfRecords(false, [Obj(ab), Obj(a)]);
    var ba: Fields := [("b", Num(3)), ("a", Num(4))];
    assert Values(ba) == [Num(3), Num(4)];
    ViewOfRecords(false, [Obj(ab), Obj(ba)]);
  }

  /** A backend error list renders as a one-column table headed "erro". */
  lemma ErrorListRendersAsTable(msg: string)
    ensures View(false, Arr([Obj([("erro", Str(msg))])])) == Table(["erro"], [[Str(msg)]])
  {
    var e: Fields := [("erro", Str(msg))];
    assert Keys(e) == ["erro"] && Values(e) == [Str(msg)];
    assert ReplaceFirst("erro") == "erro";
    assert Header(["erro"]) == ["erro"];
    ViewOfRecords(false, [Obj(e)]);
  }

  /** The component's state slots and the requests still in flight, by URL. */
  class ReportsPage {
    var activeTab: string
    var data: Value
    var loading: bool
    var inFlight: seq<string>

    /** Only tab buttons set the tab, so it is always a report id. */
    ghost predicate Valid()
      reads this
    {
      IsReportId(activeTab)
    }

    /** The first render, before the effect runs. */
    constructor ()
      ensures Valid()
      ensures activeTab == "torcedores" && data == Arr([]) && !loading && inFlight == []
    {
      activeTab := "torcedores";
      data := Arr([]);
      loading := false;
      inFlight := [];
      assert Reports[0].id == "torcedores";
    }

    /** The effect on `activeTab`: set loading and fetch the active report's URL. */
    method RunEffect()
      requires Valid()
      modifies this
      ensures Valid() && loading && activeTab == old(activeTab) && data == old(data)
      ensures exists i :: 0 <= i < |Reports| && Reports[i].id == activeTab
                          && inFlight == old(inFlight) + [BaseUrl + Reports[i].url]
    {
      loading := true;
      var report := ReportFor(activeTab);
      if report.Some? {
        inFlight := inFlight + [BaseUrl + report.value.url];
      } else {
        assert false;
      }
    }

    /** A tab's `onClick`: `setActiveTab(tab.id)`; the effect runs only when the tab changes. */
    method ClickTab(k: nat)
      requires Valid() && k < |Reports|
      modifies this
      ensures Valid() && activeTab == Reports[k].id && data == old(data)
      ensures Reports[k].id == old(activeTab) ==> loading == old(loading) && inFlight == old(inFlight)
      ensures Reports[k].id != old(activeTab) ==> loading && inFlight == old(inFlight) + [BaseUrl + Reports[k].url]
    {
      if Reports[k].id != activeTab {
        activeTab := Reports[k].id;
        ReportUrls();
        RunEffect();
      }
    }

    /** Request `i` settles: a parsed body becomes the data (status ignored), a failure is only logged; loading ends either way. */
    method Settle(i: nat, resp: Response)
      requires i < |inFlight|
      modifies this
      ensures !loading && activeTab == old(activeTab)
      ensures data == if resp.Received? then resp.body else old(data)
      ensures inFlight == old(inFlight[..i] + inFlight[i + 1..])
    {
      if resp.Received? {
        data := resp.body;
      }
      loading := false;
      inFlight := inFlight[..i] + inFlight[i + 1..];
    }

    function Render(): ReportView
      reads this
    {
      View(loading, data)
    }
  }

  /**
   * Switch tabs before the first report arrives: the first report's reply
   * ends the loading state and is shown under the new tab while the second
   * request is still out; the later reply then replaces it.
   */
  method SwitchBeforeReply(first: Value, second: Value) returns (early: ReportView, pending: seq<string>, late: ReportView, tab: string)
    requires first.Arr? && second.Arr? && IsRecords(first.items) && IsRecords(second.items)
    ensures tab == "violencia" && pending == [BaseUrl + "/api/relatorios/violencia"]
    ensures early == View(false, first) && late == View(false, second)
    ensures early != Loading
  {
    var page := new ReportsPage();
    page.RunEffect();
    page.ClickTab(1);
    ReportUrls();
    page.Settle(0, Received(true, first));
    early, pending := page.Render(), page.inFlight;
    page.Settle(0, Received(true, second));
    late, tab := page.Render(), page.activeTab;
  }
}
