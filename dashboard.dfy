/**
 * The overview page (DashboardOverview.tsx): the per-competition statistics,
 * a loading flag that starts set and is cleared only when a body arrives, the
 * three KPI cards and one table row per competition. The rows arrive as
 * records whose `total_partidas` is an integer; the corner means are floating
 * point and only their empty-list text is part of this model.
 */
module DashboardOverview {
  import opened Json
  import opened Js

  const StatsUrl := "http://localhost:8000/api/estatisticas"

  /** One row of /api/estatisticas as the page reads it. */
  datatype Stat = Stat(competicao: Option<Value>, totalPartidas: int, totalAmarelos: Option<Value>, totalVermelhos: Option<Value>)

  function PartidasOf(s: Stat): int { s.totalPartidas }

  /** `data.reduce((acc, curr) => acc + curr.total_partidas, 0)`. */
  function TotalPartidas(data: seq<Stat>): int
  {
    Reduce(data, PartidasOf, 0)
  }

  /** The total is the sum of the rows' match counts; one more row adds its count. */
  lemma TotalPartidasIsSum(data: seq<Stat>, row: Stat)
    ensures TotalPartidas(data) == Sum(data, PartidasOf)
    ensures TotalPartidas(data + [row]) == TotalPartidas(data) + row.totalPartidas
  {
    ReduceIsSum(data, PartidasOf, 0);
    ReduceIsSum(data + [row], PartidasOf, 0);
    assert (data + [row])[..|data + [row]| - 1] == data;
  }

  /** The corner-mean card's text: "0.00" for no rows; None stands for the floating-point mean of a non-empty list. */
  function CornersMeanText(data: seq<Stat>): (t: Option<string>)
    ensures t == Some("0.00") <==> data == []
  {
    if |data| > 0 then None else Some("0.00")
  }

  /** A table row: competition, matches, yellow and red cards. */
  datatype StatRow = StatRow(competicao: Option<Value>, partidas: string, amarelos: Option<Value>, vermelhos: Option<Value>)

  function RowOf(s: Stat): StatRow
  {
    StatRow(s.competicao, DecimalText(s.totalPartidas), s.totalAmarelos, s.totalVermelhos)
  }

  /** The three KPI cards (None for a mean that is not modelled) and the rows. */
  datatype DashboardView = DashboardView(total: string, mean: Option<string>, competitions: string, rows: seq<StatRow>)

  function View(loading: bool, data: seq<Stat>): DashboardView
  {
    DashboardView(
      if loading then "..." else DecimalText(TotalPartidas(data)),
      if loading then Some("...") else CornersMeanText(data),
      if loading then "..." else DecimalText(|data|),
      seq(|data|, i requires 0 <= i < |data| => RowOf(data[i])))
  }

  /**
   * While loading every KPI card shows "..."; once loaded, the first card
   * reads back as the sum of the match counts and the third as the number
   * of rows. The table has one row per record, in order, either way.
   */
  lemma ViewOfStats(loading: bool, data: seq<Stat>)
    ensures var v := View(loading, data);
      |v.rows| == |data| && (forall i :: 0 <= i < |data| ==> v.rows[i].competicao == data[i].competicao)
      && (loading ==> v.total == "..." && v.mean == Some("...") && v.competitions == "...")
      && (!loading ==> ParseInt(v.total) == Some(Sum(data, PartidasOf)) && ParseInt(v.competitions) == Some(|data|))
      && (!loading && data == [] ==> v.mean == Some("0.00"))
  {
    TotalPartidasIsSum(data, Stat(None, 0, None, None));
    ParseIntDecimal(TotalPartidas(data));
    ParseIntDecimal(|data|);
  }

  /** The page's two state slots and how many times the statistics were requested. */
  class DashboardPage {
    var data: seq<Stat>
    var loading: bool
    var requests: nat

    constructor ()
      ensures data == [] && loading && requests == 0
    {
      data, loading, requests := [], true, 0;
    }

    /** The mount effect: one request. */
    method Mount()
      modifies this
      ensures requests == old(requests) + 1 && data == old(data) && loading == old(loading)
    {
      requests := requests + 1;
    }

    /** The request settles: a body (whatever the status) replaces the data and ends loading; a rejection is only logged. */
    method Arrived(body: Option<seq<Stat>>)
      modifies this
      ensures body.Some? ==> data == body.value && !loading
      ensures body.None? ==> data == old(data) && loading == old(loading)
      ensures requests == old(requests)
    {
      if body.Some? {
        data := body.value;
        loading := false;
      }
    }

    function Render(): DashboardView
      reads this
    {
      View(loading, data)
    }
  }

  /** A failed request leaves the page loading for good: every KPI card keeps showing "...". */
  method FailureKeepsLoading() returns (view: DashboardView)
    ensures view.total == "..." && view.mean == Some("...") && view.competitions == "..." && view.rows == []
  {
    var page := new DashboardPage();
    page.Mount();
    page.Arrived(None);
    view := page.Render();
  }

  /** An empty body ends loading with a total of 0, no competitions and the mean "0.00". */
  method EmptyStatistics() returns (view: DashboardView)
    ensures view.total == "0" && view.mean == Some("0.00") && view.competitions == "0" && view.rows == []
  {
    var page := new DashboardPage();
    page.Mount();
    page.Arrived(Some([]));
    view := page.Render();
  }
}
