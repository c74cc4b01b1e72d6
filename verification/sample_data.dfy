/**
 * The built-in dataset `load_sample_data` produces when no usable file is
 * uploaded: one row per day of 2019, every counter a fixed multiple of the
 * row's index.
 */
module SampleData {
  import opened Outcomes
  import opened Decimal
  import opened Calendar
  import opened Records

  /** `range(365)`: the length of every column list. */
  const SampleLength: nat := 365

  /** Day numbers of 2019-01-01 and 2019-12-31, the `start` and `end` of the date range. */
  const SampleFirstDay: int := 17897
  const SampleLastDay: int := 18261

  lemma SampleDaysAre2019()
    ensures SampleFirstDay == DayNumber(2019, 1, 1)
    ensures SampleLastDay == DayNumber(2019, 12, 31)
    ensures SampleLastDay - SampleFirstDay + 1 == DaysInYear(2019)
  {
    KnownDays();
    YearSpan(2019);
  }

  /** Row `i` of the sample, dated `day`. */
  function SampleRow(i: nat, day: int): Row {
    Row(day, Multiples(i), Some("Video " + DecimalString(i)))
  }

  /** `load_sample_data()`. */
  function LoadSampleData(): (rows: seq<Row>)
    ensures |rows| == 365
    ensures rows[364].date == SampleLastDay
    ensures forall i :: 0 <= i < |rows| ==> rows[i].date == SampleFirstDay + i
    ensures forall i :: 0 <= i < |rows| ==>
      rows[i].counts == Multiples(i)
      && rows[i].title == Some("Video " + DecimalString(i))
  {
    var days := DateRange(SampleFirstDay, SampleLastDay);
    seq(SampleLength, i requires 0 <= i < SampleLength => SampleRow(i, days[i]))
  }

  /** Sample rows are in strictly increasing date order and carry pairwise distinct titles. */
  lemma SampleOrderedAndDistinct()
    ensures forall i, j :: 0 <= i < j < 365 ==>
      LoadSampleData()[i].date < LoadSampleData()[j].date
      && LoadSampleData()[i].title != LoadSampleData()[j].title
  {
    var rows := LoadSampleData();
    forall i, j | 0 <= i < j < 365
      ensures rows[i].date < rows[j].date && rows[i].title != rows[j].title
    {
      if rows[i].title == rows[j].title {
        assert "Video " + DecimalString(i) == "Video " + DecimalString(j);
        assert DecimalString(i) == ("Video " + DecimalString(i))[6..];
        assert DecimalString(j) == ("Video " + DecimalString(j))[6..];
        DecimalStringInjective(i, j);
      }
    }
  }

  /** Triangular number 0 + 1 + ... + (k - 1). */
  function Triangle(k: nat): nat {
    k * (k - 1) / 2
  }

  lemma TriangleStep(k: nat)
    ensures Triangle(k + 1) == Triangle(k) + k
  {
    assert (k + 1) * k == k * (k - 1) + 2 * k;
  }

  /** The counters of row `i` of the sample: `i` times each column's multiplier. */
  function Multiples(i: nat): (c: Counts)
    ensures c.subscribers == 10 * c.shares && c.views == 100 * c.shares && c.shares == i
  {
    Counts(10 * i, 100 * i, 5 * i, 20 * i, 2 * i, i)
  }

  /**
   * Rows whose counters follow the sample's pattern total, over their first `k`
   * rows, `Triangle(k)` times each column's multiplier.
   */
  lemma {:induction false} SamplePrefixTotals(rows: seq<Row>, k: nat)
    requires k <= |rows|
    requires forall i :: 0 <= i < |rows| ==> rows[i].counts == Multiples(i)
    ensures SumPrefix(rows, k) == Multiples(Triangle(k))
  {
    if k > 0 {
      SamplePrefixTotals(rows, k - 1);
      TriangleStep(k - 1);
    }
  }

  /** The all-time column totals of the sample. */
  lemma SampleTotals(rows: seq<Row>)
    requires rows == LoadSampleData()
    ensures Sum(rows) == Counts(664300, 6643000, 332150, 1328600, 132860, 66430)
  {
    SamplePrefixTotals(rows, 365);
    assert Triangle(365) == 66430;
  }
}
