/**
 * Time-bucket aggregation: `resample(freq, on="Date").sum()` for the weekly,
 * monthly and quarterly views, and the untouched rows for every other
 * time frame.
 */
module Resampling {
  import opened Outcomes
  import opened Records

  /**
   * A resampling frequency, with the calendar left abstract: `period(d)` numbers
   * the period day `d` falls in (consecutive periods, consecutive numbers), and
   * `periodEnd(p)` is the day that labels period `p`.
   */
  datatype Scheme = Scheme(period: int -> int, periodEnd: int -> int)

  /**
   * What pandas' "W", "M" and "Q" frequencies guarantee: later days never fall in
   * earlier periods, and a period is labelled by its last day.
   */
  ghost predicate ValidScheme(s: Scheme) {
    && (forall d1, d2 :: d1 <= d2 ==> s.period(d1) <= s.period(d2))
    && (forall p :: s.period(s.periodEnd(p)) == p && p < s.period(s.periodEnd(p) + 1))
  }

  /** The three frequencies the time-frame selector can ask for. */
  datatype Schemes = Schemes(weekly: Scheme, monthly: Scheme, quarterly: Scheme)

  /** The frequency a time frame resamples with; `None` means the rows pass through. */
  function SchemeFor(timeFrame: string, schemes: Schemes): (s: Option<Scheme>)
    ensures s.None? <==> timeFrame != "Weekly" && timeFrame != "Monthly" && timeFrame != "Quarterly"
  {
    if timeFrame == "Weekly" then Some(schemes.weekly)
    else if timeFrame == "Monthly" then Some(schemes.monthly)
    else if timeFrame == "Quarterly" then Some(schemes.quarterly)
    else None
  }

  /** What row `r` contributes to the totals of the periods `lo .. hi-1`. */
  function Within(r: Row, s: Scheme, lo: int, hi: int): Counts {
    if lo <= s.period(r.date) < hi then r.counts else Zero()
  }

  /** Totals of those of the first `n` rows whose period lies in `lo .. hi-1`. */
  function SumBetweenPrefix(rows: seq<Row>, s: Scheme, lo: int, hi: int, n: nat): Counts
    requires n <= |rows|
  {
    if n == 0 then Zero() else Add(SumBetweenPrefix(rows, s, lo, hi, n - 1), Within(rows[n - 1], s, lo, hi))
  }

  /** Totals of the rows whose period lies in `lo .. hi-1`. */
  function SumBetween(rows: seq<Row>, s: Scheme, lo: int, hi: int): Counts {
    SumBetweenPrefix(rows, s, lo, hi, |rows|)
  }

  /** Totals of the rows whose date falls in period `p`. */
  function PeriodSum(rows: seq<Row>, s: Scheme, p: int): Counts {
    SumBetween(rows, s, p, p + 1)
  }

  /** The first period any of the first `n` rows falls in. */
  function MinPeriodPrefix(rows: seq<Row>, s: Scheme, n: nat): (p: int)
    requires 1 <= n <= |rows|
    ensures forall i :: 0 <= i < n ==> p <= s.period(rows[i].date)
    ensures exists i :: 0 <= i < n && s.period(rows[i].date) == p
  {
    if n == 1 then s.period(rows[0].date)
    else
      var m := MinPeriodPrefix(rows, s, n - 1);
      if s.period(rows[n - 1].date) < m then s.period(rows[n - 1].date) else m
  }

  /** The last period any of the first `n` rows falls in. */
  function MaxPeriodPrefix(rows: seq<Row>, s: Scheme, n: nat): (p: int)
    requires 1 <= n <= |rows|
    ensures forall i :: 0 <= i < n ==> s.period(rows[i].date) <= p
    ensures exists i :: 0 <= i < n && s.period(rows[i].date) == p
  {
    if n == 1 then s.period(rows[0].date)
    else
      var m := MaxPeriodPrefix(rows, s, n - 1);
      if s.period(rows[n - 1].date) > m then s.period(rows[n - 1].date) else m
  }

  /** The first period any row falls in. */
  function MinPeriod(rows: seq<Row>, s: Scheme): (p: int)
    requires rows != []
    ensures forall i :: 0 <= i < |rows| ==> p <= s.period(rows[i].date)
    ensures exists i :: 0 <= i < |rows| && s.period(rows[i].date) == p
  {
    MinPeriodPrefix(rows, s, |rows|)
  }

  /** The last period any row falls in. */
  function MaxPeriod(rows: seq<Row>, s: Scheme): (p: int)
    requires rows != []
    ensures forall i :: 0 <= i < |rows| ==> s.period(rows[i].date) <= p
    ensures exists i :: 0 <= i < |rows| && s.period(rows[i].date) == p
  {
    MaxPeriodPrefix(rows, s, |rows|)
  }

  /** The row pandas emits for period `p`: its label date and its totals. */
  function BucketRow(rows: seq<Row>, s: Scheme, p: int): Row {
    Row(s.periodEnd(p), PeriodSum(rows, s, p), None)
  }

  /** One row for each of the periods `first .. first+count-1`, in that order. */
  function Buckets(rows: seq<Row>, s: Scheme, first: int, count: nat): (out: seq<Row>)
    ensures |out| == count
  {
    seq(count, i requires 0 <= i < count => BucketRow(rows, s, first + i))
  }

  lemma {:induction false} SumBetweenEmpty(rows: seq<Row>, s: Scheme, lo: int, n: nat)
    requires n <= |rows|
    ensures SumBetweenPrefix(rows, s, lo, lo, n) == Zero()
  {
    if n > 0 {
      SumBetweenEmpty(rows, s, lo, n - 1);
    }
  }

  /** A row's contribution to a window is its contribution to the window's two halves. */
  lemma WithinSplit(r: Row, s: Scheme, lo: int, hi: int)
    requires lo <= hi
    ensures Within(r, s, lo, hi + 1) == Add(Within(r, s, lo, hi), Within(r, s, hi, hi + 1))
  {
  }

  /** Widening the window by one period adds that period's totals, row by row. */
  lemma {:induction false} SumBetweenPrefixStep(rows: seq<Row>, s: Scheme, lo: int, hi: int, n: nat)
    requires lo <= hi && n <= |rows|
    ensures SumBetweenPrefix(rows, s, lo, hi + 1, n)
      == Add(SumBetweenPrefix(rows, s, lo, hi, n), SumBetweenPrefix(rows, s, hi, hi + 1, n))
  {
    if n > 0 {
      SumBetweenPrefixStep(rows, s, lo, hi, n - 1);
      WithinSplit(rows[n - 1], s, lo, hi);
      AddShuffle(SumBetweenPrefix(rows, s, lo, hi, n - 1), SumBetweenPrefix(rows, s, hi, hi + 1, n - 1),
                 Within(rows[n - 1], s, lo, hi), Within(rows[n - 1], s, hi, hi + 1));
    }
  }

  /** Widening the window by one period adds that period's totals. */
  lemma SumBetweenStep(rows: seq<Row>, s: Scheme, lo: int, hi: int)
    requires lo <= hi
    ensures SumBetween(rows, s, lo, hi + 1) == Add(SumBetween(rows, s, lo, hi), PeriodSum(rows, s, hi))
  {
    SumBetweenPrefixStep(rows, s, lo, hi, |rows|);
  }

  /** A window holding every row's period totals the whole dataset. */
  lemma {:induction false} SumBetweenAll(rows: seq<Row>, s: Scheme, lo: int, hi: int, n: nat)
    requires n <= |rows|
    requires forall i :: 0 <= i < |rows| ==> lo <= s.period(rows[i].date) < hi
    ensures SumBetweenPrefix(rows, s, lo, hi, n) == SumPrefix(rows, n)
  {
    if n > 0 {
      SumBetweenAll(rows, s, lo, hi, n - 1);
      assert Within(rows[n - 1], s, lo, hi) == rows[n - 1].counts;
    }
  }

  /**
   * Rows carrying the totals of consecutive periods from `first` on total, over
   * their first `k` rows, the rows falling in those `k` periods.
   */
  lemma {:induction false} BucketsPrefixTotal(rows: seq<Row>, s: Scheme, first: int, out: seq<Row>, k: nat)
    requires k <= |out|
    requires forall i :: 0 <= i < |out| ==> out[i].counts == PeriodSum(rows, s, first + i)
    ensures SumPrefix(out, k) == SumBetween(rows, s, first, first + k)
  {
    if k == 0 {
      SumBetweenEmpty(rows, s, first, |rows|);
    } else {
      var hi := first + (k - 1);
      BucketsPrefixTotal(rows, s, first, out, k - 1);
      SumBetweenStep(rows, s, first, hi);
      assert out[k - 1].counts == PeriodSum(rows, s, hi);
    }
  }

  /** The bucket rows for a run of periods total the rows falling in those periods. */
  lemma BucketsTotal(rows: seq<Row>, s: Scheme, first: int, count: nat)
    ensures Sum(Buckets(rows, s, first, count)) == SumBetween(rows, s, first, first + count)
  {
    var out := Buckets(rows, s, first, count);
    assert forall i :: 0 <= i < |out| ==> out[i] == BucketRow(rows, s, first + i);
    BucketsPrefixTotal(rows, s, first, out, count);
  }

  /**
   * `resample(freq, on="Date").sum().reset_index()`: one row per period from the
   * first to the last period holding data, periods without data included with
   * zero totals.
   */
  function ResampleSum(rows: seq<Row>, s: Scheme): (out: seq<Row>)
    ensures rows == [] ==> out == []
    ensures rows != [] ==> |out| == MaxPeriod(rows, s) - MinPeriod(rows, s) + 1
    ensures Sum(out) == Sum(rows)
  {
    if rows == [] then []
    else
      var lo, hi := MinPeriod(rows, s), MaxPeriod(rows, s);
      BucketsTotal(rows, s, lo, hi - lo + 1);
      SumBetweenAll(rows, s, lo, hi + 1, |rows|);
      Buckets(rows, s, lo, hi - lo + 1)
  }

  /** Output row `i` is the label and the totals of the `i`-th period from the first holding data. */
  lemma ResampleRow(rows: seq<Row>, s: Scheme, i: int)
    requires rows != [] && 0 <= i < |ResampleSum(rows, s)|
    ensures ResampleSum(rows, s)[i] == BucketRow(rows, s, MinPeriod(rows, s) + i)
  {
    var lo, hi := MinPeriod(rows, s), MaxPeriod(rows, s);
    assert ResampleSum(rows, s) == Buckets(rows, s, lo, hi - lo + 1);
  }

  /** The time-frame dispatch: sum per period for Weekly, Monthly and Quarterly, a copy otherwise. */
  function Resample(rows: seq<Row>, timeFrame: string, schemes: Schemes): (out: seq<Row>)
    ensures timeFrame != "Weekly" && timeFrame != "Monthly" && timeFrame != "Quarterly" ==> out == rows
    ensures timeFrame == "Weekly" ==> out == ResampleSum(rows, schemes.weekly)
    ensures timeFrame == "Monthly" ==> out == ResampleSum(rows, schemes.monthly)
    ensures timeFrame == "Quarterly" ==> out == ResampleSum(rows, schemes.quarterly)
    ensures Sum(out) == Sum(rows)
  {
    match SchemeFor(timeFrame, schemes)
    case None => rows
    case Some(s) => ResampleSum(rows, s)
  }

  /** Under a valid scheme, later periods carry later labels. */
  lemma LabelsIncrease(s: Scheme, p: int, q: int)
    requires ValidScheme(s)
    requires p < q
    ensures s.periodEnd(p) < s.periodEnd(q)
  {
  }

  /** Resampled rows come out in strictly increasing date order. */
  lemma ResampledInDateOrder(rows: seq<Row>, s: Scheme)
    requires ValidScheme(s)
    ensures forall i, j :: 0 <= i < j < |ResampleSum(rows, s)| ==>
      ResampleSum(rows, s)[i].date < ResampleSum(rows, s)[j].date
  {
    var out := ResampleSum(rows, s);
    forall i, j | 0 <= i < j < |out|
      ensures out[i].date < out[j].date
    {
      var lo := MinPeriod(rows, s);
      ResampleRow(rows, s, i);
      ResampleRow(rows, s, j);
      LabelsIncrease(s, lo + i, lo + j);
    }
  }

  /** Under a valid scheme a day lies after the previous period's label and no later than its own. */
  lemma DayWithinItsPeriod(s: Scheme, d: int)
    requires ValidScheme(s)
    ensures s.periodEnd(s.period(d) - 1) < d <= s.periodEnd(s.period(d))
  {
    var p := s.period(d);
    assert s.period(s.periodEnd(p - 1)) == p - 1 && s.period(s.periodEnd(p) + 1) > p;
  }

  /** Where a row lands, given only that its date lies within its own period. */
  lemma RowLandsByBounds(rows: seq<Row>, s: Scheme, k: int)
    requires 0 <= k < |rows|
    requires s.periodEnd(s.period(rows[k].date) - 1) < rows[k].date <= s.periodEnd(s.period(rows[k].date))
    ensures var out := ResampleSum(rows, s);
      var i := s.period(rows[k].date) - MinPeriod(rows, s);
      && 0 <= i < |out|
      && rows[k].date <= out[i].date
      && (i > 0 ==> out[i - 1].date < rows[k].date)
  {
    var out := ResampleSum(rows, s);
    var lo, hi, p := MinPeriod(rows, s), MaxPeriod(rows, s), s.period(rows[k].date);
    assert lo <= p <= hi;
    assert |out| == hi - lo + 1;
    ResampleRow(rows, s, p - lo);
    if p > lo {
      ResampleRow(rows, s, p - lo - 1);
    }
  }

  /**
   * Every input row lands in the output row labelled by the first label on or
   * after its date: periods are closed on the right and labelled by their end.
   */
  lemma RowLandsInItsPeriod(rows: seq<Row>, s: Scheme, k: int)
    requires ValidScheme(s)
    requires 0 <= k < |rows|
    ensures var out := ResampleSum(rows, s);
      var i := s.period(rows[k].date) - MinPeriod(rows, s);
      && 0 <= i < |out|
      && rows[k].date <= out[i].date
      && (i > 0 ==> out[i - 1].date < rows[k].date)
  {
    DayWithinItsPeriod(s, rows[k].date);
    RowLandsByBounds(rows, s, k);
  }

  /** Periods none of the first `n` rows falls in total zero over those rows. */
  lemma {:induction false} EmptyPeriodPrefix(rows: seq<Row>, s: Scheme, p: int, n: nat)
    requires n <= |rows|
    requires forall i :: 0 <= i < |rows| ==> s.period(rows[i].date) != p
    ensures SumBetweenPrefix(rows, s, p, p + 1, n) == Zero()
  {
    if n > 0 {
      EmptyPeriodPrefix(rows, s, p, n - 1);
      assert Within(rows[n - 1], s, p, p + 1) == Zero();
    }
  }

  /** Periods no row falls in come out as rows of zeros. */
  lemma EmptyPeriodIsZero(rows: seq<Row>, s: Scheme, p: int)
    requires forall i :: 0 <= i < |rows| ==> s.period(rows[i].date) != p
    ensures BucketRow(rows, s, p) == Row(s.periodEnd(p), Zero(), None)
  {
    EmptyPeriodPrefix(rows, s, p, |rows|);
  }
}
