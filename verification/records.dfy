/**
 * The dashboard's rows: a date, the six summable counters and the video
 * title, with the per-column sums the statistics cards display.
 */
module Records {
  import opened Outcomes

  /** The six numeric columns of a row, in the order the dataset lists them. */
  datatype Counts = Counts(
    subscribers: nat,
    views: nat,
    watchHours: nat,
    likes: nat,
    comments: nat,
    shares: nat)

  /**
   * One row of the dataset. `date` is a day number (see Calendar); `title` is
   * the "Video Title" cell, absent on rows produced by summing a period.
   */
  datatype Row = Row(date: int, counts: Counts, title: Option<string>)

  /** The numeric columns, named as in the dataset's header. */
  datatype Metric = Subscribers | Views | WatchHours | Likes | Comments | Shares

  function MetricName(m: Metric): string {
    match m
    case Subscribers => "Subscribers"
    case Views => "Views"
    case WatchHours => "Watch Hours"
    case Likes => "Likes"
    case Comments => "Comments"
    case Shares => "Shares"
  }

  function Field(c: Counts, m: Metric): nat {
    match m
    case Subscribers => c.subscribers
    case Views => c.views
    case WatchHours => c.watchHours
    case Likes => c.likes
    case Comments => c.comments
    case Shares => c.shares
  }

  function Zero(): Counts {
    Counts(0, 0, 0, 0, 0, 0)
  }

  /** Column-wise addition. */
  function Add(a: Counts, b: Counts): Counts {
    Counts(a.subscribers + b.subscribers, a.views + b.views, a.watchHours + b.watchHours,
           a.likes + b.likes, a.comments + b.comments, a.shares + b.shares)
  }

  lemma AddZero(a: Counts)
    ensures Add(Zero(), a) == a && Add(a, Zero()) == a
  {
  }

  lemma AddRegroup(x: Counts, a: Counts, b: Counts)
    ensures Add(x, Add(a, b)) == Add(Add(x, a), b)
    ensures Add(x, Add(a, b)) == Add(a, Add(x, b))
  {
  }

  lemma AddShuffle(a: Counts, b: Counts, c: Counts, d: Counts)
    ensures Add(Add(a, b), Add(c, d)) == Add(Add(a, c), Add(b, d))
  {
  }

  /**
   * Column-wise totals of `rows`: `df[col].sum()` for every numeric column at
   * once. Summing the first `|rows|` rows, rather than recursing on the tail,
   * keeps the verifier from unrolling sums of fixed datasets.
   */
  function Sum(rows: seq<Row>): Counts {
    SumPrefix(rows, |rows|)
  }

  /** Totals of the first `n` rows. */
  function SumPrefix(rows: seq<Row>, n: nat): Counts
    requires n <= |rows|
  {
    if n == 0 then Zero() else Add(SumPrefix(rows, n - 1), rows[n - 1].counts)
  }

  /** Rows after the first `n` do not affect the totals of the first `n`. */
  lemma {:induction false} SumPrefixOfLonger(a: seq<Row>, b: seq<Row>, n: nat)
    requires n <= |a|
    ensures SumPrefix(a + b, n) == SumPrefix(a, n)
  {
    if n > 0 {
      SumPrefixOfLonger(a, b, n - 1);
      assert (a + b)[n - 1] == a[n - 1];
    }
  }

  /** Appending one row adds its counts to the totals. */
  lemma SumSnoc(rows: seq<Row>, last: Row)
    ensures Sum(rows + [last]) == Add(Sum(rows), last.counts)
  {
    SumPrefixOfLonger(rows, [last], |rows|);
    assert (rows + [last])[|rows|] == last;
  }

  /** Totals of a concatenation are the totals of its parts added. */
  lemma {:induction false} SumAppend(a: seq<Row>, b: seq<Row>)
    ensures Sum(a + b) == Add(Sum(a), Sum(b))
    decreases |b|
  {
    if b == [] {
      assert a + b == a;
      AddZero(Sum(a));
    } else {
      var init, last := b[..|b| - 1], b[|b| - 1];
      assert b == init + [last];
      assert a + b == (a + init) + [last];
      SumAppend(a, init);
      SumSnoc(a + init, last);
      SumSnoc(init, last);
      AddRegroup(Sum(a), Sum(init), last.counts);
    }
  }
}
