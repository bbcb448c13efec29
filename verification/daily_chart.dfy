/**
 * The "last 7 days" line chart: seven day buckets ending today, each
 * collecting the income and expense of the transactions dated that day.
 */
module DailyChart {
  import opened Common
  import opened Ledger

  /** date-fns format(date, 'EEE') in the default English locale. */
  const WeekdayNames: seq<string> := ["Sun", "Mon", "Tue", "Wed", "Thu", "Fri", "Sat"]

  function DayLabel(d: int): string { WeekdayNames[Weekday(d)] }

  /** Day of bucket i: subDays(today, 6 - i). */
  function BucketDay(now: int, i: int): int { Day(now) - (6 - i) }

  /** Bucket i with nothing collected yet. */
  function EmptyDay(now: int, i: int): Bucket
  {
    var d := BucketDay(now, i);
    Bucket(DayLabel(d), DayStart(d), DayEnd(d), 0.0, 0.0)
  }

  /** Bucket i after every transaction of ts has been visited. */
  function DayCell(ts: seq<Txn>, now: int, i: int): Bucket
  {
    var d := BucketDay(now, i);
    Tally(ts, DayLabel(d), DayStart(d), DayEnd(d))
  }

  /** The chart's seven buckets, oldest first. */
  function DailySeries(ts: seq<Txn>, now: int): seq<Bucket>
  {
    seq(7, i requires 0 <= i < 7 => DayCell(ts, now, i))
  }

  /**
   * The effect in DailyChart: build the seven empty buckets, then for every
   * transaction and every day add the amount to income ("income") or to
   * expense (any other type) when the date lies in that day.
   */
  method BuildDays(ts: seq<Txn>, now: int) returns (days: seq<Bucket>)
    ensures days == DailySeries(ts, now)
  {
    var a := new Bucket[7](i => EmptyDay(now, i));
    var k := 0;
    while k < |ts|
      invariant 0 <= k <= |ts|
      invariant forall j :: 0 <= j < 7 ==> a[j] == DayCell(ts[..k], now, j)
    {
      VisitAll(a, ts[k]);
      forall i | 0 <= i < 7 ensures a[i] == DayCell(ts[..k + 1], now, i) {
        DayCellStep(ts, k, now, i);
      }
      k := k + 1;
    }
    assert ts[..|ts|] == ts;
    days := a[..];
    assert forall i :: 0 <= i < 7 ==> days[i] == DailySeries(ts, now)[i];
  }

  /** The inner loop's step for bucket i at transaction k. */
  lemma DayCellStep(ts: seq<Txn>, k: int, now: int, i: int)
    requires 0 <= k < |ts|
    ensures DayCell(ts[..k + 1], now, i) == Visit(DayCell(ts[..k], now, i), ts[k])
  {
    var d := BucketDay(now, i);
    assert ts[..k + 1] == ts[..k] + [ts[k]];
    VisitTally(ts[..k], ts[k], DayLabel(d), DayStart(d), DayEnd(d));
  }

  /**
   * Exactly seven buckets, for the days today - 6 … today in that order, each
   * spanning its day from start to end; the windows are chained, so no
   * transaction is counted in two buckets.
   */
  lemma DailyShape(ts: seq<Txn>, now: int)
    ensures |DailySeries(ts, now)| == 7
    ensures forall i :: 0 <= i < 7 ==>
      DailySeries(ts, now)[i].start == DayStart(Day(now) - 6 + i) &&
      DailySeries(ts, now)[i].end == DayEnd(Day(now) - 6 + i) &&
      DailySeries(ts, now)[i].caption == DayLabel(Day(now) - 6 + i)
    ensures DailySeries(ts, now)[6].start <= now <= DailySeries(ts, now)[6].end
    ensures Chained(DailySeries(ts, now))
  {
    DayBounds(now, Day(now));
  }

  /** With no transactions every bucket is zero. */
  lemma DailyOfEmpty(now: int)
    ensures forall i :: 0 <= i < 7 ==> DailySeries([], now)[i].income == 0.0 && DailySeries([], now)[i].expense == 0.0
  {
  }

  /**
   * A transaction is added to bucket i exactly when its instant lies in that
   * day: to income when its type is "income", to expense otherwise.
   */
  lemma DailySnoc(ts: seq<Txn>, t: Txn, now: int, i: int)
    requires 0 <= i < 7
    ensures var b, b' := DailySeries(ts, now)[i], DailySeries(ts + [t], now)[i];
      && b'.income == b.income + (if Day(t.date) == BucketDay(now, i) && IsIncome(t) then t.amount else 0.0)
      && b'.expense == b.expense + (if Day(t.date) == BucketDay(now, i) && !IsIncome(t) then t.amount else 0.0)
  {
    var d := BucketDay(now, i);
    assert DailySeries(ts, now)[i] == Tally(ts, DayLabel(d), DayStart(d), DayEnd(d));
    assert DailySeries(ts + [t], now)[i] == Tally(ts + [t], DayLabel(d), DayStart(d), DayEnd(d));
    TallySnoc(ts, t, DayLabel(d), DayStart(d), DayEnd(d));
    DayBounds(t.date, d);
  }

  /** Transactions dated before the 7-day window or after today change no bucket. */
  lemma DailyIgnoresOutside(ts: seq<Txn>, t: Txn, now: int)
    requires Day(t.date) < Day(now) - 6 || Day(now) < Day(t.date)
    ensures DailySeries(ts + [t], now) == DailySeries(ts, now)
  {
    forall i | 0 <= i < 7 ensures DailySeries(ts + [t], now)[i] == DailySeries(ts, now)[i] {
      var d := BucketDay(now, i);
      VisitTally(ts, t, DayLabel(d), DayStart(d), DayEnd(d));
      DayBounds(t.date, d);
    }
  }

  /**
   * Conservation: the seven buckets together hold exactly the amounts of the
   * transactions dated from the start of today - 6 to the end of today.
   */
  lemma DailyConservation(ts: seq<Txn>, now: int)
    ensures BucketSum(DailySeries(ts, now)) == Total(Filter(ts, SpanIn(DayStart(Day(now) - 6), DayEnd(Day(now)))))
  {
    DailyShape(ts, now);
    forall i | 0 <= i < 7 ensures HoldsWindow(ts, DailySeries(ts, now)[i]) {
      var d := BucketDay(now, i);
      TallyHoldsWindow(ts, DayLabel(d), DayStart(d), DayEnd(d));
    }
    ChainConservation(ts, DailySeries(ts, now));
  }
}
