/**
 The bar-chart projection of the Cal component: the `data` object handed to the
 chart library is a pure, order-preserving map of the fetched calendar entries
 onto parallel label and value sequences with one fixed-style dataset.
 */
module Chart {

  /** One aggregated row of the calendar endpoint's response. The hours value
      is never inspected, only passed through, so its type is a parameter. */
  datatype Entry<H> = Entry(name: string, hours: H)

  /** One dataset of a bar chart: its legend label, values and fill colour. */
  datatype Dataset<H> = Dataset(legendLabel: string, data: seq<H>, backgroundColor: string)

  /** The chart data: category labels on the x axis and the datasets drawn over them. */
  datatype ChartData<H> = ChartData(labels: seq<string>, datasets: seq<Dataset<H>>)

  const DatasetLabel: string := "Hours per Calendar"
  const BarColour: string := "#4F46E5"

  /** The calendar names, in response order. */
  function Names<H>(entries: seq<Entry<H>>): (r: seq<string>)
    ensures |r| == |entries|
    ensures forall i :: 0 <= i < |entries| ==> r[i] == entries[i].name
  {
    if |entries| == 0 then [] else [entries[0].name] + Names(entries[1..])
  }

  /** The hours values, in response order. */
  function Hours<H>(entries: seq<Entry<H>>): (r: seq<H>)
    ensures |r| == |entries|
    ensures forall i :: 0 <= i < |entries| ==> r[i] == entries[i].hours
  {
    if |entries| == 0 then [] else [entries[0].hours] + Hours(entries[1..])
  }

  /** The chart data built from the entries on every render. */
  function Project<H>(entries: seq<Entry<H>>): (r: ChartData<H>)
    ensures |r.datasets| == 1
    ensures r.datasets[0].legendLabel == DatasetLabel
    ensures r.datasets[0].backgroundColor == BarColour
    ensures |r.labels| == |r.datasets[0].data| == |entries|
    ensures forall i :: 0 <= i < |entries| ==>
              r.labels[i] == entries[i].name && r.datasets[0].data[i] == entries[i].hours
  {
    ChartData(Names(entries), [Dataset(DatasetLabel, Hours(entries), BarColour)])
  }

  /** A chart shaped as the projection shapes it: one dataset with the fixed
      label and colour, and as many values as labels. */
  predicate IsBarChart<H>(c: ChartData<H>) {
    && |c.datasets| == 1
    && c.datasets[0].legendLabel == DatasetLabel
    && c.datasets[0].backgroundColor == BarColour
    && |c.labels| == |c.datasets[0].data|
  }

  /** Pairs labels with values position by position. */
  function Zip<H>(labels: seq<string>, values: seq<H>): (r: seq<Entry<H>>)
    requires |labels| == |values|
    ensures |r| == |labels|
  {
    if |labels| == 0 then [] else [Entry(labels[0], values[0])] + Zip(labels[1..], values[1..])
  }

  /** Reads the entries back off a bar chart: the inverse of `Project`. */
  function Entries<H>(c: ChartData<H>): (r: seq<Entry<H>>)
    requires IsBarChart(c)
    ensures |r| == |c.labels|
  {
    Zip(c.labels, c.datasets[0].data)
  }

  lemma {:induction false} ZipNamesHours<H>(entries: seq<Entry<H>>)
    ensures Zip(Names(entries), Hours(entries)) == entries
    decreases |entries|
  {
    if |entries| > 0 {
      ZipNamesHours(entries[1..]);
      assert Names(entries)[1..] == Names(entries[1..]);
      assert Hours(entries)[1..] == Hours(entries[1..]);
    }
  }

  lemma {:induction false} NamesHoursZip<H>(labels: seq<string>, values: seq<H>)
    requires |labels| == |values|
    ensures Names(Zip(labels, values)) == labels
    ensures Hours(Zip(labels, values)) == values
    decreases |labels|
  {
    if |labels| > 0 {
      NamesHoursZip(labels[1..], values[1..]);
      assert Zip(labels, values)[1..] == Zip(labels[1..], values[1..]);
    }
  }

  /** The projection loses nothing: the entries can be read back off the chart. */
  lemma ProjectRoundTrip<H>(entries: seq<Entry<H>>)
    ensures IsBarChart(Project(entries))
    ensures Entries(Project(entries)) == entries
  {
    ZipNamesHours(entries);
  }

  /** Every bar chart of the projection's shape is the projection of its own entries. */
  lemma EntriesRoundTrip<H>(c: ChartData<H>)
    requires IsBarChart(c)
    ensures Project(Entries(c)) == c
  {
    NamesHoursZip(c.labels, c.datasets[0].data);
    assert c.datasets == [c.datasets[0]];
  }

  /** Distinct entry sequences give distinct charts: order and contents both show. */
  lemma ProjectInjective<H>(a: seq<Entry<H>>, b: seq<Entry<H>>)
    ensures Project(a) == Project(b) <==> a == b
  {
  }

  /** The empty response projects to an empty chart that still has its one dataset. */
  lemma ProjectEmpty<H>()
    ensures Project<H>([]).labels == []
    ensures Project<H>([]).datasets == [Dataset(DatasetLabel, [], BarColour)]
  {
  }
}
