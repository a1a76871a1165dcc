/**
 What the Cal component renders for a state: three independent blocks under the
 heading, each guarded by its own condition on the state. Markup and styling
 are not modelled, only which block appears and what it carries.
 */
module View {
  import opened Chart
  import opened Fetch

  /** The loading line: never shown together with the chart or for a failure. */
  predicate ShowsLoading<H>(st: State<H>)
    ensures ShowsLoading(st) ==> !ShowsChart(st) && st.status != Error
  {
    st.status == Loading
  }

  /** The panel is guarded by the truthiness of `error` alone, whatever the
      status, so it never shows for a null or empty message. */
  predicate ShowsErrorPanel<H>(st: State<H>)
    ensures ShowsErrorPanel(st) ==> st.error.Some? && |st.error.value| > 0
  {
    Truthy(st.error)
  }

  /** The chart: never shown while loading or after a failure, and always with at least one bar. */
  predicate ShowsChart<H>(st: State<H>)
    ensures ShowsChart(st) ==> st.status != Loading && st.status != Error && |Project(st.calendarData).labels| > 0
  {
    st.status == Success && |st.calendarData| > 0
  }

  /** The rendered blocks: the loading line, the error panel's text, the bar chart's data. */
  datatype Screen<H> = Screen(loading: bool, errorPanel: Option<string>, chart: Option<ChartData<H>>)

  function Render<H>(st: State<H>): (v: Screen<H>)
    ensures v.loading <==> st.status == Loading
    ensures v.errorPanel.Some? <==> st.error.Some? && st.error.value != ""
    ensures v.errorPanel.Some? ==> v.errorPanel.value == st.error.value
    ensures v.chart.Some? <==> st.status == Success && |st.calendarData| > 0
    ensures v.chart.Some? ==> |v.chart.value.labels| > 0 && IsBarChart(v.chart.value) && Entries(v.chart.value) == st.calendarData
  {
    Screen(
      ShowsLoading(st),
      if ShowsErrorPanel(st) then Some(st.error.value) else None,
      if ShowsChart(st) then ProjectRoundTrip(st.calendarData); Some(Project(st.calendarData)) else None)
  }

  /** How many of the three blocks are on screen. */
  function Blocks<H>(st: State<H>): nat {
    (if ShowsLoading(st) then 1 else 0)
    + (if ShowsErrorPanel(st) then 1 else 0)
    + (if ShowsChart(st) then 1 else 0)
  }

  /** Before the effect runs the status is idle, and idle shows no block at all. */
  lemma InitialRendersNothing<H>()
    ensures Render(Initial<H>()) == Screen(false, None, None)
  {
  }

  /** Starting a fetch shows the loading line and hides the chart; the error
      panel is as it was. */
  lemma StartView<H>(st: State<H>)
    ensures ShowsLoading(Start(st)) && !ShowsChart(Start(st))
    ensures Render(Start(st)).errorPanel == Render(st).errorPanel
  {
  }

  /** An OK settlement hides the loading line and shows the chart of the body
      exactly when the body is non-empty; an empty body is not an error. */
  lemma SettleOkView<H>(st: State<H>, body: seq<Entry<H>>)
    ensures !ShowsLoading(Settle(st, Ok(body)))
    ensures ShowsChart(Settle(st, Ok(body))) <==> |body| > 0
    ensures |body| > 0 ==> Render(Settle(st, Ok(body))).chart == Some(Project(body))
    ensures Render(Settle(st, Ok(body))).errorPanel == Render(st).errorPanel
  {
  }

  /** A failed settlement hides the loading line and the chart. A non-OK
      response always shows the panel, with the server's message or the
      fallback; an exception shows it exactly when its message is non-empty. */
  lemma SettleFailView<H>(st: State<H>, s: Settlement<H>)
    requires !s.Ok?
    ensures !ShowsLoading(Settle(st, s)) && !ShowsChart(Settle(st, s))
    ensures s.NotOk? ==> Render(Settle(st, s)).errorPanel == Some(ErrorMessage(s.errorField))
    ensures s.Thrown? ==> (ShowsErrorPanel(Settle(st, s)) <==> s.message != "")
  {
  }

  /** The error panel's visibility and text do not depend on the status. */
  lemma ErrorPanelIgnoresStatus<H>(st: State<H>, status: Status)
    ensures Render(st.(status := status)).errorPanel == Render(st).errorPanel
  {
  }

  /** An empty OK response ends in success with nothing on screen. */
  lemma EmptySuccessShowsNothing<H>()
    ensures Mount<H>(Ok([]))[2].status == Success
    ensures Render(Mount<H>(Ok([]))[2]) == Screen(false, None, None)
  {
  }

  /** Over the component's life at most one block is ever on screen; once the
      fetch has settled exactly one is, unless the response was an empty OK
      array or the exception had an empty message. */
  lemma MountShowsOneBlock<H>(s: Settlement<H>)
    ensures forall i :: 0 <= i < |Mount(s)| ==> Blocks(Mount(s)[i]) <= 1
    ensures Blocks(Mount(s)[2]) == 1 <==> !(s == Ok([]) || s == Thrown(""))
  {
  }
}
