/**
 * The "last 4 weeks" bar chart: four Monday-to-Sunday weeks ending with the
 * current week, each collecting income and expense of the transactions
 * dated inside it.
 */
module WeeklyChart {
  import opened Common
  import opened Ledger

  /** `Week ${i + 1}` for i in 0..3. */
  function WeekLabel(i: int): string
    requires 0 <= i < 4
  {
    "Week " + [['1', '2', '3', '4'][i]]
  }

  /** Monday of bucket i: startOfWeek(subWeeks(today, 3 - i), { weekStartsOn: 1 }). */
  function WeekMonday(now: int, i: int): int { MondayOf(Day(now) - 7 * (3 - i)) }

  /** Bucket i with nothing collected yet: Monday 00:00 to Sunday 23:59:59.999. */
  function EmptyWeek(now: int, i: int): Bucket
    requires 0 <= i < 4
  {
    var m := WeekMonday(now, i);
    Bucket(WeekLabel(i), DayStart(m), DayEnd(m + 6), 0.0, 0.0)
  }

  /** Bucket i after every transaction of ts has been visited. */
  function WeekCell(ts: seq<Txn>, now: int, i: int): Bucket
    requires 0 <= i < 4
  {
    var m := WeekMonday(now, i);
    Tally(ts, WeekLabel(i), DayStart(m), DayEnd(m + 6))
  }

  /** The chart's four buckets, oldest first. */
  function WeeklySeries(ts: seq<Txn>, now: int): seq<Bucket>
  {
    seq(4, i requires 0 <= i < 4 => WeekCell(ts, now, i))
  }

  lemma WeekCellStep(ts: seq<Txn>, k: int, now: int, i: int)
    requires 0 <= k < |ts| && 0 <= i < 4
    ensures WeekCell(ts[..k + 1], now, i) == Visit(WeekCell(ts[..k], now, i), ts[k])
  {
    var m := WeekMonday(now, i);
    assert ts[..k + 1] == ts[..k] + [ts[k]];
    VisitTally(ts[..k], ts[k], WeekLabel(i), DayStart(m), DayEnd(m + 6));
  }

  /**
   * The effect in WeeklyChart: build the four empty weeks, then for every
   * transaction and every week add the amount to income ("income") or to
   * expense (any other type) when startDate <= date <= endDate.
   */
  method BuildWeeks(ts: seq<Txn>, now: int) returns (weeks: seq<Bucket>)
    ensures weeks == WeeklySeries(ts, now)
  {
    var a := new Bucket[4](i => if 0 <= i < 4 then EmptyWeek(now, i) else Bucket("", 0, 0, 0.0, 0.0));
    var k := 0;
    while k < |ts|
      invariant 0 <= k <= |ts|
      invariant forall j :: 0 <= j < 4 ==> a[j] == WeekCell(ts[..k], now, j)
    {
      VisitAll(a, ts[k]);
      forall i | 0 <= i < 4 ensures a[i] == WeekCell(ts[..k + 1], now, i) {
        WeekCellStep(ts, k, now, i);
      }
      k := k + 1;
    }
    assert ts[..|ts|] == ts;
    weeks := a[..];
    assert forall i :: 0 <= i < 4 ==> weeks[i] == WeeklySeries(ts, now)[i];
  }

  /** Bucket i's Monday is the current week's Monday moved back 3 - i weeks. */
  lemma WeekMondays(now: int)
    ensures forall i :: 0 <= i < 4 ==> WeekMonday(now, i) == MondayOf(Day(now)) - 7 * (3 - i)
  {
    MondayShift(Day(now), 3);
    MondayShift(Day(now), 2);
    MondayShift(Day(now), 1);
    MondayShift(Day(now), 0);
  }

  /**
   * Exactly four buckets labelled Week 1 … Week 4. Bucket i runs from Monday
   * 00:00 to the end of Sunday of the week 3 - i weeks before the current
   * one; the weeks are consecutive, so disjoint, and the last one contains now.
   */
  lemma WeeklyShape(ts: seq<Txn>, now: int)
    ensures |WeeklySeries(ts, now)| == 4
    ensures forall i :: 0 <= i < 4 ==>
      && WeeklySeries(ts, now)[i].caption == WeekLabel(i)
      && WeeklySeries(ts, now)[i].start == DayStart(WeekMonday(now, i))
      && WeeklySeries(ts, now)[i].end == DayEnd(WeekMonday(now, i) + 6)
      && Weekday(WeekMonday(now, i)) == 1
      && WeekMonday(now, i) == MondayOf(Day(now)) - 7 * (3 - i)
    ensures WeeklySeries(ts, now)[3].start <= now <= WeeklySeries(ts, now)[3].end
    ensures Chained(WeeklySeries(ts, now))
  {
    WeekMondays(now);
    DayBounds(now, Day(now));
  }

  /** A transaction is added to bucket i exactly when it is dated inside that week. */
  lemma WeeklySnoc(ts: seq<Txn>, t: Txn, now: int, i: int)
    requires 0 <= i < 4
    ensures var b, b' := WeeklySeries(ts, now)[i], WeeklySeries(ts + [t], now)[i];
      && b'.income == b.income + (if b.start <= t.date <= b.end && IsIncome(t) then t.amount else 0.0)
      && b'.expense == b.expense + (if b.start <= t.date <= b.end && !IsIncome(t) then t.amount else 0.0)
  {
    var m := WeekMonday(now, i);
    assert WeeklySeries(ts, now)[i] == Tally(ts, WeekLabel(i), DayStart(m), DayEnd(m + 6));
    assert WeeklySeries(ts + [t], now)[i] == Tally(ts + [t], WeekLabel(i), DayStart(m), DayEnd(m + 6));
    TallySnoc(ts, t, WeekLabel(i), DayStart(m), DayEnd(m + 6));
  }

  /**
   * Later days of the current week count even though they are after today:
   * a transaction dated after today but on or before this week's Sunday lies
   * in the last bucket's window, so WeeklySnoc adds it there.
   */
  lemma WeeklyCountsRestOfWeek(ts: seq<Txn>, t: Txn, now: int)
    requires Day(now) < Day(t.date) <= MondayOf(Day(now)) + 6
    ensures InSpan(t, WeeklySeries(ts, now)[3].start, WeeklySeries(ts, now)[3].end)
  {
    WeekMondays(now);
    var m := WeekMonday(now, 3);
    DayBounds(t.date, Day(t.date));
    assert DayStart(m) <= t.date <= DayEnd(m + 6);
  }

  /** A transaction dated outside bucket i's week leaves that bucket as it was. */
  lemma WeekCellOutside(ts: seq<Txn>, t: Txn, now: int, i: int)
    requires 0 <= i < 4
    requires t.date < DayStart(WeekMonday(now, i)) || DayEnd(WeekMonday(now, i) + 6) < t.date
    ensures WeeklySeries(ts + [t], now)[i] == WeeklySeries(ts, now)[i]
  {
    var m := WeekMonday(now, i);
    assert WeeklySeries(ts, now)[i] == Tally(ts, WeekLabel(i), DayStart(m), DayEnd(m + 6));
    assert WeeklySeries(ts + [t], now)[i] == Tally(ts + [t], WeekLabel(i), DayStart(m), DayEnd(m + 6));
    VisitTally(ts, t, WeekLabel(i), DayStart(m), DayEnd(m + 6));
  }

  /** Transactions dated outside the four weeks change no bucket. */
  lemma WeeklyIgnoresOutside(ts: seq<Txn>, t: Txn, now: int)
    requires Day(t.date) < MondayOf(Day(now)) - 21 || MondayOf(Day(now)) + 6 < Day(t.date)
    ensures WeeklySeries(ts + [t], now) == WeeklySeries(ts, now)
  {
    WeekMondays(now);
    DayBounds(t.date, Day(t.date));
    forall i | 0 <= i < 4 ensures WeeklySeries(ts + [t], now)[i] == WeeklySeries(ts, now)[i] {
      WeekCellOutside(ts, t, now, i);
    }
  }

  /**
   * Conservation: the four buckets together hold exactly the amounts of the
   * transactions dated from Monday 00:00 three weeks back to the end of this
   * week's Sunday.
   */
  lemma WeeklyConservation(ts: seq<Txn>, now: int)
    ensures BucketSum(WeeklySeries(ts, now))
         == Total(Filter(ts, SpanIn(DayStart(MondayOf(Day(now)) - 21), DayEnd(MondayOf(Day(now)) + 6))))
  {
    WeeklyShape(ts, now);
    forall i | 0 <= i < 4 ensures HoldsWindow(ts, WeeklySeries(ts, now)[i]) {
      var m := WeekMonday(now, i);
      TallyHoldsWindow(ts, WeekLabel(i), DayStart(m), DayEnd(m + 6));
    }
    ChainConservation(ts, WeeklySeries(ts, now));
  }
}
