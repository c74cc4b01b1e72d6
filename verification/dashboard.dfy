/**
 * The script's data flow, top to bottom: the active dataset, the filtered and
 * resampled frame, and the statistic cards computed from them.
 */
module Dashboard {
  import opened Records
  import opened SampleData
  import opened Loader
  import opened DateFilter
  import opened Resampling
  import opened Abbreviation

  /** The four metrics with a statistic card, in display order. */
  const CardMetrics: seq<Metric> := [Subscribers, Views, WatchHours, Likes]

  /** A statistic card: the metric's name, its column total, and that total abbreviated. */
  datatype Card = Card(name: string, value: nat, abbreviated: string)

  /** The cards of one section: `(name, frame[name].sum())`, shown with `format_number`. */
  function StatCards(rows: seq<Row>, tenths: Tenths): (cards: seq<Card>)
    ensures |cards| == |CardMetrics|
    ensures forall i :: 0 <= i < |cards| ==>
      cards[i].name == MetricName(CardMetrics[i])
      && cards[i].value == Field(Sum(rows), CardMetrics[i])
      && cards[i].abbreviated == FormatNumber(cards[i].value, tenths)
  {
    var totals := Sum(rows);
    seq(|CardMetrics|, i requires 0 <= i < |CardMetrics| =>
      var m := CardMetrics[i];
      Card(MetricName(m), Field(totals, m), FormatNumber(Field(totals, m), tenths)))
  }

  /** The four cards, spelled out: subscribers, views, watch hours, likes. */
  lemma CardsInOrder(rows: seq<Row>, tenths: Tenths)
    ensures var cards := StatCards(rows, tenths);
      var totals := Sum(rows);
      && cards[0] == Card("Subscribers", totals.subscribers, FormatNumber(totals.subscribers, tenths))
      && cards[1] == Card("Views", totals.views, FormatNumber(totals.views, tenths))
      && cards[2] == Card("Watch Hours", totals.watchHours, FormatNumber(totals.watchHours, tenths))
      && cards[3] == Card("Likes", totals.likes, FormatNumber(totals.likes, tenths))
  {
    var cards := StatCards(rows, tenths);
    assert CardMetrics[2] == WatchHours && CardMetrics[3] == Likes;
  }

  /** `resampled_df`: the active rows within the chosen dates, resampled to the chosen time frame. */
  function SelectedFrame(rows: seq<Row>, start: int, end: int, timeFrame: string, schemes: Schemes): (out: seq<Row>)
    ensures Sum(out) == Sum(FilterRange(rows, start, end))
    ensures timeFrame != "Weekly" && timeFrame != "Monthly" && timeFrame != "Quarterly" ==>
      out == FilterRange(rows, start, end)
  {
    Resample(FilterRange(rows, start, end), timeFrame, schemes)
  }

  /**
   * The "Selected Duration" cards show the totals of the rows inside the date
   * range, whichever time frame is chosen.
   */
  lemma SelectedCardsAreRangeTotals(upload: Upload, start: int, end: int, timeFrame: string,
                                    schemes: Schemes, tenths: Tenths)
    ensures var rows := LoadDataset(upload).rows;
      StatCards(SelectedFrame(rows, start, end, timeFrame, schemes), tenths)
        == StatCards(FilterRange(rows, start, end), tenths)
  {
    var rows := LoadDataset(upload).rows;
    var a := StatCards(SelectedFrame(rows, start, end, timeFrame, schemes), tenths);
    var b := StatCards(FilterRange(rows, start, end), tenths);
    assert forall i :: 0 <= i < |a| ==> a[i] == b[i];
  }

  /**
   * With the date pickers at their defaults and the Daily time frame, the
   * selected frame is the whole active dataset, row for row.
   */
  lemma DailyDefaultsShowEverything(upload: Upload, schemes: Schemes)
    requires LoadDataset(upload).rows != []
    ensures var rows := LoadDataset(upload).rows;
      SelectedFrame(rows, MinDate(rows), MaxDate(rows), "Daily", schemes) == rows
  {
    DefaultRangeKeepsAll(LoadDataset(upload).rows);
  }

  /** Rows totalling the sample's totals show the sample's four cards. */
  lemma SampleTotalsCards(rows: seq<Row>, tenths: Tenths)
    requires Sum(rows) == Counts(664300, 6643000, 332150, 1328600, 132860, 66430)
    requires FaithfulTenths(tenths)
    ensures StatCards(rows, tenths) == [
      Card("Subscribers", 664300, "(664.3K)"),
      Card("Views", 6643000, FormatNumber(6643000, tenths)),
      Card("Watch Hours", 332150, FormatNumber(332150, tenths)),
      Card("Likes", 1328600, FormatNumber(1328600, tenths))]
  {
    var cards := StatCards(rows, tenths);
    CardsInOrder(rows, tenths);
    SubscriberTotalAbbreviation(tenths);
    assert |cards| == 4;
    assert cards[0] == Card("Subscribers", 664300, "(664.3K)");
  }

  /** Without an upload, the All-Time cards read 664,300 subscribers (664.3K), 6,643,000
      views, 332,150 watch hours and 1,328,600 likes. */
  lemma SampleAllTimeCards(upload: Upload, tenths: Tenths)
    requires upload.NoFile?
    requires FaithfulTenths(tenths)
    ensures StatCards(LoadDataset(upload).rows, tenths) == [
      Card("Subscribers", 664300, "(664.3K)"),
      Card("Views", 6643000, FormatNumber(6643000, tenths)),
      Card("Watch Hours", 332150, FormatNumber(332150, tenths)),
      Card("Likes", 1328600, FormatNumber(1328600, tenths))]
  {
    var rows := LoadDataset(upload).rows;
    SampleTotals(rows);
    SampleTotalsCards(rows, tenths);
  }

  /** Rows in date order under a valid scheme span the periods of their first and last dates. */
  lemma SortedPeriodSpan(rows: seq<Row>, s: Scheme)
    requires ValidScheme(s)
    requires rows != []
    requires forall i, j :: 0 <= i < j < |rows| ==> rows[i].date <= rows[j].date
    ensures MinPeriod(rows, s) == s.period(rows[0].date)
    ensures MaxPeriod(rows, s) == s.period(rows[|rows| - 1].date)
  {
    var lo, hi := MinPeriod(rows, s), MaxPeriod(rows, s);
    var i :| 0 <= i < |rows| && s.period(rows[i].date) == lo;
    var j :| 0 <= j < |rows| && s.period(rows[j].date) == hi;
    assert rows[0].date <= rows[i].date;
    assert rows[j].date <= rows[|rows| - 1].date;
  }

  /** Rows in date order resample to one row per period from their first date's to their last's. */
  lemma SortedResampleLength(rows: seq<Row>, s: Scheme, first: int, last: int)
    requires ValidScheme(s)
    requires rows != [] && rows[0].date == first && rows[|rows| - 1].date == last
    requires forall i, j :: 0 <= i < j < |rows| ==> rows[i].date <= rows[j].date
    ensures |ResampleSum(rows, s)| == s.period(last) - s.period(first) + 1
  {
    SortedPeriodSpan(rows, s);
  }

  /** Counts in the sample's fixed ratios: every column a multiple of Shares. */
  predicate SampleRatios(c: Counts) {
    c == Counts(10 * c.shares, 100 * c.shares, 5 * c.shares, 20 * c.shares, 2 * c.shares, c.shares)
  }

  /** Summing rows in the sample's ratios keeps those ratios, whatever window is summed. */
  lemma {:induction false} PeriodSumKeepsRatios(rows: seq<Row>, s: Scheme, lo: int, hi: int, n: nat)
    requires n <= |rows|
    requires forall i :: 0 <= i < |rows| ==> SampleRatios(rows[i].counts)
    ensures SampleRatios(SumBetweenPrefix(rows, s, lo, hi, n))
  {
    if n > 0 {
      PeriodSumKeepsRatios(rows, s, lo, hi, n - 1);
      assert SampleRatios(Within(rows[n - 1], s, lo, hi));
    }
  }

  /** Resampling rows in the sample's ratios gives rows in the same ratios. */
  lemma ResampledKeepsRatios(rows: seq<Row>, s: Scheme)
    requires forall k :: 0 <= k < |rows| ==> SampleRatios(rows[k].counts)
    ensures forall i :: 0 <= i < |ResampleSum(rows, s)| ==> SampleRatios(ResampleSum(rows, s)[i].counts)
  {
    var out := ResampleSum(rows, s);
    forall i | 0 <= i < |out|
      ensures SampleRatios(out[i].counts)
    {
      ResampleRow(rows, s, i);
      var p := MinPeriod(rows, s) + i;
      PeriodSumKeepsRatios(rows, s, p, p + 1, |rows|);
    }
  }

  /**
   * Resampling the full sample year gives one row per period from the period of
   * 2019-01-01 to that of 2019-12-31.
   */
  lemma SampleYearPeriods(rows: seq<Row>, s: Scheme)
    requires rows == LoadSampleData()
    requires ValidScheme(s)
    ensures |ResampleSum(rows, s)| == s.period(SampleLastDay) - s.period(SampleFirstDay) + 1
  {
    SampleOrderedAndDistinct();
    SortedResampleLength(rows, s, SampleFirstDay, SampleLastDay);
  }

  /** Every resampled row of the sample keeps its ratios: Subscribers ten times Shares, and so on. */
  lemma SampleYearRatios(rows: seq<Row>, s: Scheme)
    requires rows == LoadSampleData()
    ensures forall i :: 0 <= i < |ResampleSum(rows, s)| ==> SampleRatios(ResampleSum(rows, s)[i].counts)
  {
    assert forall k :: 0 <= k < |rows| ==> SampleRatios(rows[k].counts);
    ResampledKeepsRatios(rows, s);
  }
}
