/** The inclusive date-range filter `start <= Date <= end`. */
module DateFilter {
  import opened Records

  predicate InRange(r: Row, start: int, end: int) {
    start <= r.date <= end
  }

  /**
   * `a` is `b` with some elements left out and the rest in their original
   * order: match `a`'s first element against `b`'s first, else skip it in `b`.
   */
  ghost predicate Subsequence<T>(a: seq<T>, b: seq<T>)
    decreases |b|
  {
    |a| == 0 || (|b| > 0 && (if a[0] == b[0] then Subsequence(a[1..], b[1..]) else Subsequence(a, b[1..])))
  }

  /** `df[(df["Date"] >= start) & (df["Date"] <= end)]`. */
  function FilterRange(rows: seq<Row>, start: int, end: int): (kept: seq<Row>)
    ensures forall x :: multiset(kept)[x] == if InRange(x, start, end) then multiset(rows)[x] else 0
    ensures forall i :: 0 <= i < |kept| ==> InRange(kept[i], start, end)
    ensures Subsequence(kept, rows)
    decreases |rows|
  {
    if rows == [] then []
    else
      var rest := FilterRange(rows[1..], start, end);
      assert rows == [rows[0]] + rows[1..];
      if InRange(rows[0], start, end) then [rows[0]] + rest else rest
  }

  /** Earliest date of a non-empty dataset: `df["Date"].min()`. */
  function MinDate(rows: seq<Row>): (d: int)
    requires rows != []
    ensures forall i :: 0 <= i < |rows| ==> d <= rows[i].date
    ensures exists i :: 0 <= i < |rows| && rows[i].date == d
    decreases |rows|
  {
    if |rows| == 1 then rows[0].date
    else
      var m := MinDate(rows[1..]);
      if rows[0].date <= m then rows[0].date else m
  }

  /** Latest date of a non-empty dataset: `df["Date"].max()`. */
  function MaxDate(rows: seq<Row>): (d: int)
    requires rows != []
    ensures forall i :: 0 <= i < |rows| ==> rows[i].date <= d
    ensures exists i :: 0 <= i < |rows| && rows[i].date == d
    decreases |rows|
  {
    if |rows| == 1 then rows[0].date
    else
      var m := MaxDate(rows[1..]);
      if rows[0].date >= m then rows[0].date else m
  }

  /** A range that contains every row's date keeps the dataset whole. */
  lemma {:induction false} WideRangeKeepsAll(rows: seq<Row>, start: int, end: int)
    requires forall i :: 0 <= i < |rows| ==> InRange(rows[i], start, end)
    ensures FilterRange(rows, start, end) == rows
    decreases |rows|
  {
    if rows != [] {
      WideRangeKeepsAll(rows[1..], start, end);
    }
  }

  /** With the date pickers at their defaults (the earliest and latest date), nothing is dropped. */
  lemma DefaultRangeKeepsAll(rows: seq<Row>)
    requires rows != []
    ensures FilterRange(rows, MinDate(rows), MaxDate(rows)) == rows
  {
    WideRangeKeepsAll(rows, MinDate(rows), MaxDate(rows));
  }

  /** Filtering again with the same bounds changes nothing. */
  lemma FilterIdempotent(rows: seq<Row>, start: int, end: int)
    ensures FilterRange(FilterRange(rows, start, end), start, end) == FilterRange(rows, start, end)
  {
    WideRangeKeepsAll(FilterRange(rows, start, end), start, end);
  }
}
