/**
 * `create_chart`: which chart kind a selector value picks, the colour a
 * metric is drawn in, and the title; the figure itself is a record of those
 * choices and the plotted points.
 */
module Charts {
  import opened Records

  datatype ChartKind = BarChart | AreaChart | PieChart | LineChart

  /** The chart-type selector's option for each kind. */
  function ChartTypeName(k: ChartKind): string {
    match k
    case BarChart => "Bar Chart"
    case AreaChart => "Area Chart"
    case PieChart => "Pie Chart"
    case LineChart => "Line Chart"
  }

  /** The `if/elif` over `chart_type`: three exact names, and a line chart for anything else. */
  function ChartKindOf(chartType: string): ChartKind {
    if chartType == "Bar Chart" then BarChart
    else if chartType == "Area Chart" then AreaChart
    else if chartType == "Pie Chart" then PieChart
    else LineChart
  }

  /** `metric_colors`: one fixed colour per numeric column. */
  const MetricColors: map<string, string> := map[
    "Subscribers" := "#1f77b4",
    "Views" := "#ff7f0e",
    "Watch Hours" := "#2ca02c",
    "Likes" := "#d62728",
    "Comments" := "#9467bd",
    "Shares" := "#8c564b"]

  /** The blue used for a metric the table does not list. */
  const DefaultColor: string := "#1f77b4"

  /** `metric_colors.get(metric, "#1f77b4")`. */
  function MetricColor(metric: string): string {
    if metric in MetricColors then MetricColors[metric] else DefaultColor
  }

  /** What `create_chart` hands to plotly: kind, plotted column, colour, title, template,
      and the (Date, value) points it plots. */
  datatype ChartSpec = ChartSpec(
    kind: ChartKind,
    metric: Metric,
    color: string,
    title: string,
    theme: string,
    points: seq<(int, nat)>)

  /** `create_chart(metric, title)` over the resampled rows, with the selectors' values. */
  function CreateChart(rows: seq<Row>, metric: Metric, title: string, chartType: string,
                       timeFrame: string, theme: string): (c: ChartSpec)
    ensures c.kind == BarChart <==> chartType == "Bar Chart"
    ensures c.kind == AreaChart <==> chartType == "Area Chart"
    ensures c.kind == PieChart <==> chartType == "Pie Chart"
    ensures c.kind == LineChart <==> chartType !in ["Bar Chart", "Area Chart", "Pie Chart"]
    ensures c.color == MetricColors[MetricName(metric)]
    ensures |c.title| == |title| + |timeFrame| + 3
    ensures c.title[..|title|] == title && c.title[|title|..] == " (" + timeFrame + ")"
    ensures c.metric == metric && c.theme == theme
    ensures |c.points| == |rows|
    ensures forall i :: 0 <= i < |rows| ==> c.points[i] == (rows[i].date, Field(rows[i].counts, metric))
  {
    var points := seq(|rows|, i requires 0 <= i < |rows| => (rows[i].date, Field(rows[i].counts, metric)));
    ChartSpec(ChartKindOf(chartType), metric, MetricColor(MetricName(metric)),
              title + " (" + timeFrame + ")", theme, points)
  }

  /** Each kind's selector option selects it, and it is the only value that does,
      except for the line chart, which every unrecognised value also selects. */
  lemma ChartTypeRoundTrip(k: ChartKind, chartType: string)
    ensures ChartKindOf(ChartTypeName(k)) == k
    ensures k != LineChart ==> (ChartKindOf(chartType) == k <==> chartType == ChartTypeName(k))
  {
  }

  /** The six metrics are drawn in six different colours, and a name outside the table
      falls back to the default blue. */
  lemma MetricColorsDistinct(m1: Metric, m2: Metric, other: string)
    requires other !in ["Subscribers", "Views", "Watch Hours", "Likes", "Comments", "Shares"]
    ensures m1 != m2 ==> MetricColor(MetricName(m1)) != MetricColor(MetricName(m2))
    ensures MetricColor(other) == DefaultColor
  {
  }
}
