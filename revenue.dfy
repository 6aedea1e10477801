/**
 * Per-day revenue as the revenue series compute it: records carry a day and an amount,
 * a day's revenue is the sum of the amounts recorded on that day, and a window of days
 * collects the amounts recorded inside it.
 */
module Revenue {
  import opened Seqs

  /** One entry of a revenue series: a day number and the revenue taken that day. */
  datatype Bucket = Bucket(date: int, revenue: int)

  function BucketDate(b: Bucket): int { b.date }
  function BucketRevenue(b: Bucket): int { b.revenue }

  /** The sum of `amount` over the records whose day is `d`. */
  function DaySum<T>(s: seq<T>, day: T -> int, amount: T -> int, d: int): int {
    if s == [] then 0
    else
      var last := s[|s| - 1];
      DaySum(s[..|s| - 1], day, amount, d) + (if day(last) == d then amount(last) else 0)
  }

  /** The day sums of the `n` days from `lo`, added up. */
  function RangeSum<T>(s: seq<T>, day: T -> int, amount: T -> int, lo: int, n: nat): int {
    if n == 0 then 0 else RangeSum(s, day, amount, lo, n - 1) + DaySum(s, day, amount, lo + n - 1)
  }

  /** The sum of `amount` over the records whose day lies in `lo .. lo + n - 1`. */
  function WindowSum<T>(s: seq<T>, day: T -> int, amount: T -> int, lo: int, n: nat): int {
    if s == [] then 0
    else
      var last := s[|s| - 1];
      WindowSum(s[..|s| - 1], day, amount, lo, n) + (if lo <= day(last) < lo + n then amount(last) else 0)
  }

  /** One more record adds its amount to its own day's sum and to no other. */
  lemma DaySumSnoc<T>(s: seq<T>, x: T, day: T -> int, amount: T -> int, d: int)
    ensures DaySum(s + [x], day, amount, d) == DaySum(s, day, amount, d) + (if day(x) == d then amount(x) else 0)
  {
    assert (s + [x])[..|s|] == s;
  }

  /** One more record adds its amount to the range exactly when its day is in it. */
  lemma {:induction false} RangeSumSnoc<T>(s: seq<T>, x: T, day: T -> int, amount: T -> int, lo: int, n: nat)
    ensures RangeSum(s + [x], day, amount, lo, n)
         == RangeSum(s, day, amount, lo, n) + (if lo <= day(x) < lo + n then amount(x) else 0)
  {
    assert (s + [x])[..|s|] == s;
    if n > 0 {
      RangeSumSnoc(s, x, day, amount, lo, n - 1);
    }
  }

  /** Adding up the day sums of a window counts every record inside the window once, and nothing else. */
  lemma {:induction false} RangeSumIsWindowSum<T>(s: seq<T>, day: T -> int, amount: T -> int, lo: int, n: nat)
    ensures RangeSum(s, day, amount, lo, n) == WindowSum(s, day, amount, lo, n)
  {
    if s == [] {
      RangeOfNothing(day, amount, lo, n);
    } else {
      var init, last := s[..|s| - 1], s[|s| - 1];
      assert s == init + [last];
      RangeSumIsWindowSum(init, day, amount, lo, n);
      RangeSumSnoc(init, last, day, amount, lo, n);
    }
  }

  lemma {:induction false} RangeOfNothing<T>(day: T -> int, amount: T -> int, lo: int, n: nat)
    ensures RangeSum([], day, amount, lo, n) == 0
  {
    if n > 0 {
      RangeOfNothing(day, amount, lo, n - 1);
    }
  }

  /**
   * A series whose entries are the consecutive days from `lo`, each holding its day sum,
   * adds up to exactly the amounts recorded inside the window.
   */
  lemma {:induction false} SeriesTotal<T>(buckets: seq<Bucket>, s: seq<T>, day: T -> int, amount: T -> int, lo: int)
    requires forall j :: 0 <= j < |buckets| ==>
      buckets[j].date == lo + j && buckets[j].revenue == DaySum(s, day, amount, buckets[j].date)
    ensures Sum(buckets, BucketRevenue) == WindowSum(s, day, amount, lo, |buckets|)
  {
    SeriesIsRange(buckets, s, day, amount, lo);
    RangeSumIsWindowSum(s, day, amount, lo, |buckets|);
  }

  lemma {:induction false} SeriesIsRange<T>(buckets: seq<Bucket>, s: seq<T>, day: T -> int, amount: T -> int, lo: int)
    requires forall j :: 0 <= j < |buckets| ==>
      buckets[j].date == lo + j && buckets[j].revenue == DaySum(s, day, amount, buckets[j].date)
    ensures Sum(buckets, BucketRevenue) == RangeSum(s, day, amount, lo, |buckets|)
  {
    if buckets != [] {
      var init := buckets[..|buckets| - 1];
      assert forall j :: 0 <= j < |init| ==> init[j] == buckets[j];
      SeriesIsRange(init, s, day, amount, lo);
    }
  }

  /** A day sum is the plain sum of the per-record contribution `f`. */
  lemma {:induction false} DaySumIsSum<T>(s: seq<T>, day: T -> int, amount: T -> int, d: int, f: T -> int)
    requires forall x :: f(x) == if day(x) == d then amount(x) else 0
    ensures DaySum(s, day, amount, d) == Sum(s, f)
  {
    if s != [] {
      DaySumIsSum(s[..|s| - 1], day, amount, d, f);
    }
  }

  /** A day sum does not depend on the order of the records. */
  lemma DaySumPermutation<T>(a: seq<T>, b: seq<T>, day: T -> int, amount: T -> int, d: int)
    requires multiset(a) == multiset(b)
    ensures DaySum(a, day, amount, d) == DaySum(b, day, amount, d)
  {
    var f := x => if day(x) == d then amount(x) else 0;
    DaySumIsSum(a, day, amount, d, f);
    DaySumIsSum(b, day, amount, d, f);
    SumPermutation(a, b, f);
  }

  lemma {:induction false} WindowSumIsSum<T>(s: seq<T>, day: T -> int, amount: T -> int, lo: int, n: nat, f: T -> int)
    requires forall x :: f(x) == if lo <= day(x) < lo + n then amount(x) else 0
    ensures WindowSum(s, day, amount, lo, n) == Sum(s, f)
  {
    if s != [] {
      WindowSumIsSum(s[..|s| - 1], day, amount, lo, n, f);
    }
  }

  /** A window sum does not depend on the order of the records. */
  lemma WindowSumPermutation<T>(a: seq<T>, b: seq<T>, day: T -> int, amount: T -> int, lo: int, n: nat)
    requires multiset(a) == multiset(b)
    ensures WindowSum(a, day, amount, lo, n) == WindowSum(b, day, amount, lo, n)
  {
    var f := x => if lo <= day(x) < lo + n then amount(x) else 0;
    WindowSumIsSum(a, day, amount, lo, n, f);
    WindowSumIsSum(b, day, amount, lo, n, f);
    SumPermutation(a, b, f);
  }

  /**
   * The two loops of both `getRevenue` handlers: `days` zero buckets ending at day `today`,
   * oldest first, then each record's amount added to the first bucket of its day. Each
   * bucket ends up with its day's sum and the buckets together with the window's sum.
   */
  method DailySeries<T>(records: seq<T>, day: T -> int, amount: T -> int, days: int, today: int) returns (buckets: seq<Bucket>)
    ensures |buckets| == if days > 0 then days else 0
    ensures forall j :: 0 <= j < |buckets| ==>
      buckets[j].date == today - (days - 1) + j && buckets[j].revenue == DaySum(records, day, amount, buckets[j].date)
    ensures Sum(buckets, BucketRevenue) == WindowSum(records, day, amount, today - (days - 1), |buckets|)
  {
    buckets := [];
    var i := days - 1;
    while i >= 0
      invariant if days > 0 then -1 <= i < days else i == days - 1
      invariant |buckets| == days - 1 - i
      invariant forall j :: 0 <= j < |buckets| ==> buckets[j] == Bucket(today - (days - 1) + j, 0)
    {
      buckets := buckets + [Bucket(today - i, 0)];
      i := i - 1;
    }
    var k := 0;
    while k < |records|
      invariant 0 <= k <= |records|
      invariant |buckets| == if days > 0 then days else 0
      invariant forall j :: 0 <= j < |buckets| ==>
        buckets[j].date == today - (days - 1) + j && buckets[j].revenue == DaySum(records[..k], day, amount, buckets[j].date)
    {
      var r := records[k];
      assert records[..k + 1][..k] == records[..k];
      match FindIndex(buckets, BucketDate, day(r)) {
        case Some(m) =>
          buckets := buckets[m := buckets[m].(revenue := buckets[m].revenue + amount(r))];
        case None =>
      }
      k := k + 1;
    }
    assert records[..k] == records;
    SeriesTotal(buckets, records, day, amount, today - (days - 1));
  }
}
