/**
 * The analytics page (frontend/src/pages/Insights.jsx): the week, month and
 * year series drawn from the journal, the overall journal statistics with the
 * day streak, and the breathing-session statistics.
 *
 * Days are day numbers, `today` is a parameter, and the calendar month of a
 * day number (what `new Date(e.date).getMonth()`/`getFullYear()` report) is
 * the parameter `monthOf`.
 */
module Insights {
  import opened Wrappers
  import opened Calendar
  import Journal
  import Breathe
  import Sorting
  import Seqs

  type Entry = Journal.Entry

  // ------------------------------------------------------------- mood scale

  /** `moodValueMap`. */
  function MoodValue(name: string): (v: Option<int>)
    ensures v.Some? ==> 1 <= v.value <= 5
    ensures v.Some? <==> name in {"Great", "Okay", "Dreamy", "Low", "Anxious"}
  {
    if name == "Great" then Some(5)
    else if name == "Okay" || name == "Dreamy" then Some(3)
    else if name == "Low" then Some(2)
    else if name == "Anxious" then Some(1)
    else None
  }

  /** `reverseMoodMap`. */
  function ReverseMood(n: int): (r: Option<string>)
    ensures r.Some? <==> 1 <= n <= 5
  {
    if n == 5 then Some("Great")
    else if n == 4 then Some("Good")
    else if n == 3 then Some("Okay")
    else if n == 2 then Some("Low")
    else if n == 1 then Some("Anxious")
    else None
  }

  /** Mapping a label to its value and back is the identity, except that 'Dreamy' reads back as 'Okay'. */
  lemma MoodScaleRoundTrip(name: string)
    requires MoodValue(name).Some?
    ensures ReverseMood(MoodValue(name).value) == Some(if name == "Dreamy" then "Okay" else name)
  {
  }

  // ------------------------------------------------------------- week / month series

  /** One point of the week or month chart. */
  datatype DayPoint = DayPoint(fullDate: int, value: Option<int>, sleep: Option<real>,
                               stress: Option<int>, moodName: Option<string>)

  /** The chart point of day `key`: null fields where there is no entry, no mood, or a zero metric. */
  function PointFor(journal: Journal.Store, key: int): (p: DayPoint)
    ensures p.fullDate == key
    ensures Journal.Get(journal, key).None? ==> p == DayPoint(key, None, None, None, None)
    ensures Journal.Get(journal, key).Some? ==>
      var e := Journal.Get(journal, key).value;
      && (p.value.Some? <==> e.mood.Some? && MoodValue(e.mood.value.name).Some?)
      && (p.value.Some? ==> p.value == MoodValue(e.mood.value.name))
      && (p.sleep.Some? <==> e.sleep != 0.0) && (p.sleep.Some? ==> p.sleep.value == e.sleep)
      && (p.stress.Some? <==> e.stress != 0) && (p.stress.Some? ==> p.stress.value == e.stress)
      && (p.moodName.Some? <==> e.mood.Some?)
  {
    match Journal.Get(journal, key)
    case None => DayPoint(key, None, None, None, None)
    case Some(e) =>
      DayPoint(key,
               if e.mood.Some? then MoodValue(e.mood.value.name) else None,
               if e.sleep != 0.0 then Some(e.sleep) else None,
               if e.stress != 0 then Some(e.stress) else None,
               if e.mood.Some? then Some(e.mood.value.name) else None)
  }

  /** The trailing `days` day buckets ending today, oldest first. */
  function DailySeries(journal: Journal.Store, today: int, days: nat): (ps: seq<DayPoint>)
    ensures |ps| == days
    ensures forall i :: 0 <= i < days ==> ps[i] == PointFor(journal, today - (days - 1) + i)
  {
    seq(days, i requires 0 <= i < days => PointFor(journal, today - (days - 1) + i))
  }

  /** Every day of the window has exactly one bucket, at its distance from the first day. */
  lemma DailySeriesCoversWindow(journal: Journal.Store, today: int, days: nat, key: int)
    requires today - days < key <= today
    ensures var ps := DailySeries(journal, today, days);
      && ps[key - (today - days + 1)].fullDate == key
      && forall i :: 0 <= i < days && i != key - (today - days + 1) ==> ps[i].fullDate != key
  {
  }

  lemma DailySeriesOrder(journal: Journal.Store, today: int, days: nat)
    requires days > 0
    ensures DailySeries(journal, today, days)[days - 1].fullDate == today
    ensures forall i, j :: 0 <= i < j < days ==>
      DailySeries(journal, today, days)[i].fullDate < DailySeries(journal, today, days)[j].fullDate
  {
  }

  // ------------------------------------------------------------- avgVal

  function SumPresent(vals: seq<Option<real>>): real {
    if vals == [] then 0.0
    else SumPresent(vals[..|vals| - 1]) + (if vals[|vals| - 1].Some? then vals[|vals| - 1].value else 0.0)
  }

  function CountPresent(vals: seq<Option<real>>): (n: nat)
    ensures n <= |vals|
    ensures n == 0 <==> forall i :: 0 <= i < |vals| ==> vals[i].None?
  {
    if vals == [] then 0
    else CountPresent(vals[..|vals| - 1]) + (if vals[|vals| - 1].Some? then 1 else 0)
  }

  /** `avgVal`: the mean of the present values, or null when none is present. */
  function AvgVal(vals: seq<Option<real>>): (r: Option<real>)
    ensures r.None? <==> forall i :: 0 <= i < |vals| ==> vals[i].None?
    ensures r.Some? ==> r.value * CountPresent(vals) as real == SumPresent(vals)
  {
    var n := CountPresent(vals);
    if n == 0 then None else Some(SumPresent(vals) / n as real)
  }

  /** `x` added once per present value. */
  function ScaledCount(vals: seq<Option<real>>, x: real): real {
    if vals == [] then 0.0
    else ScaledCount(vals[..|vals| - 1], x) + (if vals[|vals| - 1].Some? then x else 0.0)
  }

  lemma {:induction false} ScaledCountIsProduct(vals: seq<Option<real>>, x: real)
    ensures ScaledCount(vals, x) == x * CountPresent(vals) as real
  {
    if vals != [] {
      ScaledCountIsProduct(vals[..|vals| - 1], x);
      ScaleStep(x, CountPresent(vals[..|vals| - 1]) as real);
    }
  }

  lemma {:induction false} SumPresentBounds(vals: seq<Option<real>>, lo: real, hi: real)
    requires forall i :: 0 <= i < |vals| && vals[i].Some? ==> lo <= vals[i].value <= hi
    ensures ScaledCount(vals, lo) <= SumPresent(vals) <= ScaledCount(vals, hi)
  {
    if vals != [] {
      var init := vals[..|vals| - 1];
      assert forall i :: 0 <= i < |init| ==> init[i] == vals[i];
      SumPresentBounds(init, lo, hi);
    }
  }

  lemma ScaleStep(x: real, n: real)
    ensures x * (n + 1.0) == x * n + x
  {
  }

  lemma MeanBounds(sum: real, n: real, lo: real, hi: real)
    requires n > 0.0 && lo * n <= sum <= hi * n
    ensures lo <= sum / n <= hi
  {
  }

  /** A mean lies between the smallest and the largest value it averages. */
  lemma AvgValWithinBounds(vals: seq<Option<real>>, lo: real, hi: real)
    requires forall i :: 0 <= i < |vals| && vals[i].Some? ==> lo <= vals[i].value <= hi
    ensures AvgVal(vals).Some? ==> lo <= AvgVal(vals).value <= hi
  {
    if CountPresent(vals) > 0 {
      SumBetweenScaledCounts(vals, lo, hi);
      MeanBounds(SumPresent(vals), CountPresent(vals) as real, lo, hi);
    }
  }

  /** The sum of the present values lies between `lo` and `hi` times their number. */
  lemma SumBetweenScaledCounts(vals: seq<Option<real>>, lo: real, hi: real)
    requires forall i :: 0 <= i < |vals| && vals[i].Some? ==> lo <= vals[i].value <= hi
    ensures lo * CountPresent(vals) as real <= SumPresent(vals) <= hi * CountPresent(vals) as real
  {
    SumPresentBounds(vals, lo, hi);
    ScaledCountIsProduct(vals, lo);
    ScaledCountIsProduct(vals, hi);
  }

  /** Two entries of one month with sleep 6 and 8 give that month's sleep as 7. */
  lemma AvgValOfTwoSleeps()
    ensures AvgVal([Some(6.0), Some(8.0)]) == Some(7.0)
    ensures AvgVal([Some(6.0), None, Some(8.0)]) == Some(7.0)
  {
    var one: seq<Option<real>> := [Some(6.0)];
    assert one[..0] == [];
    assert SumPresent(one) == 6.0 && CountPresent(one) == 1;
    assert [Some(6.0), Some(8.0)][..1] == one;
    assert SumPresent([Some(6.0), Some(8.0)]) == 14.0 && CountPresent([Some(6.0), Some(8.0)]) == 2;
    assert [Some(6.0), None][..1] == one;
    assert SumPresent([Some(6.0), None]) == 6.0 && CountPresent([Some(6.0), None]) == 1;
    assert [Some(6.0), None, Some(8.0)][..2] == [Some(6.0), None];
    assert SumPresent([Some(6.0), None, Some(8.0)]) == 14.0 && CountPresent([Some(6.0), None, Some(8.0)]) == 2;
  }

  // ------------------------------------------------------------- year series

  /** `Math.round`: the nearest integer, halves rounded up. */
  function RoundReal(x: real): (n: int)
    ensures n as real - 0.5 <= x < n as real + 0.5
  {
    (x + 0.5).Floor
  }

  /** The trailing twelve months ending with the current one, oldest first. */
  function TrailingMonths(current: YearMonth): (ms: seq<YearMonth>)
    requires ValidMonth(current)
    ensures |ms| == 12 && ms[11] == current
    ensures forall i :: 0 <= i < 12 ==> ValidMonth(ms[i]) && MonthIndex(ms[i]) == MonthIndex(current) - 11 + i
  {
    seq(12, i requires 0 <= i < 12 => MonthsBack(current, 11 - i))
  }

  /** The twelve buckets are twelve different months. */
  lemma TrailingMonthsDistinct(current: YearMonth)
    requires ValidMonth(current)
    ensures forall i, j :: 0 <= i < j < 12 ==> TrailingMonths(current)[i] != TrailingMonths(current)[j]
  {
  }

  /**
   * The month list as written: `d.setMonth(d.getMonth() - k)` keeps today's
   * day of the month, and where the target month is shorter than that the
   * date rolls over into the following month.
   */
  function TrailingMonthsAsWritten(current: YearMonth, dayOfMonth: int): (ms: seq<YearMonth>)
    requires ValidMonth(current)
    ensures |ms| == 12
    ensures forall i :: 0 <= i < 12 ==>
      var t := TrailingMonths(current)[i];
      && (ms[i] == t <==> dayOfMonth <= DaysInMonth(t.month, t.year))
      && (ms[i] != t ==> ms[i] == NextMonth(t))
  {
    var ts := TrailingMonths(current);
    seq(12, i requires 0 <= i < 12 => Landing(ts[i], dayOfMonth))
  }

  /** The month a date lands in when its month is set to `target` and its day is kept. */
  function Landing(target: YearMonth, dayOfMonth: int): (m: YearMonth)
    requires ValidMonth(target)
    ensures m == target <==> dayOfMonth <= DaysInMonth(target.month, target.year)
    ensures m != target ==> m == NextMonth(target)
  {
    if dayOfMonth > DaysInMonth(target.month, target.year) then NextMonth(target) else target
  }

  /** Up to the 28th of the month every month has the day, and the list as written is the intended one. */
  lemma AsWrittenAgreesUpToThe28th(current: YearMonth, dayOfMonth: int)
    requires ValidMonth(current) && dayOfMonth <= 28
    ensures TrailingMonthsAsWritten(current, dayOfMonth) == TrailingMonths(current)
  {
    var ms, ts := TrailingMonthsAsWritten(current, dayOfMonth), TrailingMonths(current);
    forall i | 0 <= i < 12 ensures ms[i] == ts[i] {
      assert ValidMonth(ts[i]);
    }
  }

  /** On 31 March 2025 the list as written shows March twice and February not at all. */
  lemma YearBucketsAsWrittenSkipFebruary()
    ensures var ms := TrailingMonthsAsWritten(YearMonth(2025, 2), 31);
      && ms[10] == YearMonth(2025, 2) && ms[11] == YearMonth(2025, 2)
      && forall i :: 0 <= i < 12 ==> ms[i] != YearMonth(2025, 1)
  {
    var cur := YearMonth(2025, 2);
    var ms := TrailingMonthsAsWritten(cur, 31);
    forall i | 0 <= i < 12 ensures ms[i] != YearMonth(2025, 1) && (i >= 10 ==> ms[i] == cur) {
      var t := TrailingMonths(cur)[i];
      StepsMoveByOneMonth(t);
      if i == 9 {
        SameIndexSameMonth(t, YearMonth(2025, 0));
      } else if i == 10 {
        SameIndexSameMonth(t, YearMonth(2025, 1));
      } else if i == 11 {
        SameIndexSameMonth(t, cur);
      }
    }
  }

  /** One bar of the year chart. */
  datatype MonthPoint = MonthPoint(month: YearMonth, value: Option<real>, sleep: Option<real>,
                                   stress: Option<real>, moodName: Option<string>)

  /** `entries.filter(...)` on the month and year of each entry's date. */
  function MonthEntries(entries: seq<Entry>, ym: YearMonth, monthOf: int -> YearMonth): (r: seq<Entry>)
    ensures |r| <= |entries|
    ensures forall k :: 0 <= k < |r| ==> monthOf(r[k].date) == ym
    ensures forall e :: e in r <==> e in entries && monthOf(e.date) == ym
    ensures forall e :: multiset(r)[e] == if monthOf(e.date) == ym then multiset(entries)[e] else 0
    ensures Seqs.IsSubsequence(r, entries)
  {
    var inMonth := (e: Entry) => monthOf(e.date) == ym;
    Seqs.FilterIsSubsequence(entries, inMonth);
    Seqs.FilterCounts(entries, inMonth);
    var r := Seqs.Filter(entries, inMonth);
    assert forall k :: 0 <= k < |r| ==> r[k] in r;
    r
  }

  /** The entry's mood has a value in `moodValueMap`. */
  predicate MappedMood(e: Entry) {
    e.mood.Some? && MoodValue(e.mood.value.name).Some?
  }

  /** `e => e.mood ? moodValueMap[e.mood.label] : null`, with an unmapped label skipped like null. */
  function MoodValues(es: seq<Entry>): (vs: seq<Option<real>>)
    ensures |vs| == |es|
    ensures forall i :: 0 <= i < |es| ==> (vs[i].Some? <==> MappedMood(es[i]))
    ensures forall i :: 0 <= i < |es| && es[i].mood.Some? && MoodValue(es[i].mood.value.name).Some? ==>
      vs[i] == Some(MoodValue(es[i].mood.value.name).value as real)
    ensures forall i :: 0 <= i < |es| && vs[i].Some? ==> 1.0 <= vs[i].value <= 5.0
  {
    seq(|es|, i requires 0 <= i < |es| =>
      if es[i].mood.Some? && MoodValue(es[i].mood.value.name).Some?
      then Some(MoodValue(es[i].mood.value.name).value as real) else None)
  }

  /** `e => e.sleep ? Number(e.sleep) : null`. */
  function SleepValues(es: seq<Entry>): (vs: seq<Option<real>>)
    ensures |vs| == |es|
    ensures forall i :: 0 <= i < |es| ==> (vs[i].Some? <==> es[i].sleep != 0.0)
    ensures forall i :: 0 <= i < |es| && vs[i].Some? ==> vs[i].value == es[i].sleep
  {
    seq(|es|, i requires 0 <= i < |es| => if es[i].sleep != 0.0 then Some(es[i].sleep) else None)
  }

  /** `e => e.stress ? Number(e.stress) : null`. */
  function StressValues(es: seq<Entry>): (vs: seq<Option<real>>)
    ensures |vs| == |es|
    ensures forall i :: 0 <= i < |es| ==> (vs[i].Some? <==> es[i].stress != 0)
    ensures forall i :: 0 <= i < |es| && vs[i].Some? ==> vs[i].value == es[i].stress as real
  {
    seq(|es|, i requires 0 <= i < |es| => if es[i].stress != 0 then Some(es[i].stress as real) else None)
  }

  /** A falsy average (null or 0) is shown as null. */
  function Truthy(v: Option<real>): Option<real> {
    if v.Some? && v.value != 0.0 then v else None
  }

  /** The bar of month `ym`: the means over that month's entries, and the label of the rounded mood mean. */
  function MonthPointFor(entries: seq<Entry>, ym: YearMonth, monthOf: int -> YearMonth): (p: MonthPoint)
    ensures p.month == ym
    ensures var es := MonthEntries(entries, ym, monthOf);
      && p.value == Truthy(AvgVal(MoodValues(es)))
      && p.sleep == Truthy(AvgVal(SleepValues(es)))
      && p.stress == Truthy(AvgVal(StressValues(es)))
    ensures MonthEntries(entries, ym, monthOf) == [] ==> p == MonthPoint(ym, None, None, None, None)
    ensures p.value.None? <==> forall e :: e in entries && monthOf(e.date) == ym ==> !MappedMood(e)
    ensures p.value.Some? ==> 1.0 <= p.value.value <= 5.0
    ensures p.moodName.Some? <==> p.value.Some?
    ensures p.moodName.Some? ==> p.moodName == ReverseMood(RoundReal(p.value.value))
  {
    var es := MonthEntries(entries, ym, monthOf);
    var mood := AvgVal(MoodValues(es));
    AvgValWithinBounds(MoodValues(es), 1.0, 5.0);
    MonthMoodPresent(entries, ym, monthOf);
    MonthPoint(ym, Truthy(mood), Truthy(AvgVal(SleepValues(es))), Truthy(AvgVal(StressValues(es))),
               if mood.Some? then ReverseMood(RoundReal(mood.value)) else None)
  }

  /** The month has a mood value exactly when one of its entries has a mapped mood. */
  lemma MonthMoodPresent(entries: seq<Entry>, ym: YearMonth, monthOf: int -> YearMonth)
    ensures var vs := MoodValues(MonthEntries(entries, ym, monthOf));
      (forall i :: 0 <= i < |vs| ==> vs[i].None?) <==> forall e :: e in entries && monthOf(e.date) == ym ==> !MappedMood(e)
  {
    var es := MonthEntries(entries, ym, monthOf);
    var vs := MoodValues(es);
    if exists e :: e in entries && monthOf(e.date) == ym && MappedMood(e) {
      var e :| e in entries && monthOf(e.date) == ym && MappedMood(e);
      var k :| 0 <= k < |es| && es[k] == e;
      assert vs[k].Some?;
    }
  }

  function YearSeries(entries: seq<Entry>, current: YearMonth, monthOf: int -> YearMonth): (ps: seq<MonthPoint>)
    requires ValidMonth(current)
    ensures |ps| == 12 && ps[11].month == current
    ensures forall i :: 0 <= i < 12 ==> ps[i] == MonthPointFor(entries, TrailingMonths(current)[i], monthOf)
  {
    var ms := TrailingMonths(current);
    seq(12, i requires 0 <= i < 12 => MonthPointFor(entries, ms[i], monthOf))
  }

  // ------------------------------------------------------------- overall journal stats

  datatype Stats = Stats(totalEntries: int, avgMood: string, currentStreak: int)

  const DefaultStats := Stats(0, "N/A", 0)

  /** `e.mood || e.sleep || e.stress`. */
  predicate Filled(e: Entry) {
    e.mood.Some? || e.sleep != 0.0 || e.stress != 0
  }

  /** `entries.filter(e => e.mood || e.sleep || e.stress)`. */
  function FilledEntries(es: seq<Entry>): (r: seq<Entry>)
    ensures |r| <= |es|
    ensures forall k :: 0 <= k < |r| ==> Filled(r[k])
    ensures forall e :: e in r <==> e in es && Filled(e)
    ensures r == [] <==> forall k :: 0 <= k < |es| ==> !Filled(es[k])
  {
    var r := Seqs.Filter(es, Filled);
    assert forall k :: 0 <= k < |r| ==> r[k] in r;
    forall k | 0 <= k < |es| && Filled(es[k]) ensures r != [] {
      assert es[k] in r;
    }
    assert r != [] ==> r[0] in es && Filled(r[0]);
    r
  }

  /** Every filled entry is kept, in order, as many times as it occurs. */
  lemma FilledEntriesKeepsEvery(es: seq<Entry>)
    ensures forall e :: multiset(FilledEntries(es))[e] == if Filled(e) then multiset(es)[e] else 0
    ensures Seqs.IsSubsequence(FilledEntries(es), es)
  {
    Seqs.FilterIsSubsequence(es, Filled);
    Seqs.FilterCounts(es, Filled);
  }

  /** Sum of `moodValueMap[label] || 0` over the entries that have a mood. */
  function MoodTotal(es: seq<Entry>): (t: nat)
    ensures t <= 5 * MoodCount(es)
  {
    if es == [] then 0
    else
      var e := es[|es| - 1];
      MoodTotal(es[..|es| - 1]) + (if e.mood.Some? then MoodValue(e.mood.value.name).GetOr(0) else 0)
  }

  /** Number of entries that have a mood, whether or not its label is mapped. */
  function MoodCount(es: seq<Entry>): nat {
    if es == [] then 0
    else MoodCount(es[..|es| - 1]) + (if es[|es| - 1].mood.Some? then 1 else 0)
  }

  /** `Math.round(a / b)` for `a >= 0`, `b > 0`: halves round up. */
  function RoundDiv(a: nat, b: nat): (r: nat)
    requires b > 0
    ensures b * (2 * r) <= 2 * a + b < b * (2 * r + 2)
  {
    (2 * a + b) / (2 * b)
  }

  /** A rounded mean of values of at most 5 is at most 5. */
  lemma RoundedMeanAtMostFive(n: nat, total: nat, r: nat)
    requires n > 0 && total <= 5 * n && n * (2 * r) <= 2 * total + n
    ensures r <= 5
  {
  }

  /**
   * The rounded mean mood value, 0 when no entry has a mood. An unmapped
   * label adds 0 to the total but still counts in the denominator.
   */
  function AverageMood(es: seq<Entry>): (avg: nat)
    ensures MoodCount(es) == 0 ==> avg == 0
    ensures MoodCount(es) > 0 ==> MoodCount(es) * (2 * avg) <= 2 * MoodTotal(es) + MoodCount(es) < MoodCount(es) * (2 * avg + 2)
    ensures avg <= 5
  {
    var n := MoodCount(es);
    if n == 0 then 0
    else
      var r := RoundDiv(MoodTotal(es), n);
      RoundedMeanAtMostFive(n, MoodTotal(es), r);
      r
  }

  /** `reverseMoodMap[avg] || 'Okay'`. */
  function AverageMoodLabel(es: seq<Entry>): string {
    ReverseMood(AverageMood(es)).GetOr("Okay")
  }

  /** Entries with 'Great', 'Low' and no mood: (5 + 2) / 2 = 3.5 rounds to 4, shown as 'Good'. */
  lemma AverageMoodExample(great: Journal.Mood, low: Journal.Mood, day: int)
    requires great.name == "Great" && low.name == "Low"
    ensures var es := [Journal.Entry("", Some(great), 7.0, 3, day),
                       Journal.Entry("", Some(low), 7.0, 3, day + 1),
                       Journal.Entry("", None, 7.0, 3, day + 2)];
      MoodTotal(es) == 7 && MoodCount(es) == 2 && AverageMood(es) == 4 && AverageMoodLabel(es) == "Good"
  {
    var es := [Journal.Entry("", Some(great), 7.0, 3, day),
               Journal.Entry("", Some(low), 7.0, 3, day + 1),
               Journal.Entry("", None, 7.0, 3, day + 2)];
    assert es[..2] == [es[0], es[1]];
    assert es[..2][..1] == [es[0]];
    assert [es[0]][..0] == [];
    assert MoodTotal([es[0]]) == 5 && MoodCount([es[0]]) == 1;
    assert MoodTotal(es[..2]) == 7 && MoodCount(es[..2]) == 2;
    assert RoundDiv(7, 2) == 4;
  }

  /** An entry with an unmapped label drags the average down: 'Great' with 'Happy' gives (5 + 0) / 2. */
  lemma UnmappedMoodCountsAsZero(great: Journal.Mood, other: Journal.Mood, day: int)
    requires great.name == "Great" && MoodValue(other.name).None?
    ensures var es := [Journal.Entry("", Some(great), 7.0, 3, day), Journal.Entry("", Some(other), 7.0, 3, day + 1)];
      MoodTotal(es) == 5 && MoodCount(es) == 2 && AverageMood(es) == 3
  {
    var es := [Journal.Entry("", Some(great), 7.0, 3, day), Journal.Entry("", Some(other), 7.0, 3, day + 1)];
    assert es[..1] == [es[0]];
  }

  // ------------------------------------------------------------- streak

  /** `m` is the latest day among `dates`. */
  predicate IsLatest(dates: seq<int>, m: int) {
    m in dates && forall d :: d in dates ==> d <= m
  }

  /**
   * Reference definition of the streak: 0 unless the latest day is today or
   * yesterday; otherwise `k` days ending at the latest day all have an entry
   * and the day before them has none.
   */
  ghost predicate IsStreak(dates: seq<int>, today: int, k: int) {
    && (dates == [] ==> k == 0)
    && forall m :: IsLatest(dates, m) ==>
         if m == today || m == today - 1 then
           k >= 1 && (forall d :: m - k < d <= m ==> d in dates) && m - k !in dates
         else k == 0
  }

  /** The reference definition fixes the streak. */
  lemma IsStreakUnique(dates: seq<int>, today: int, k1: int, k2: int)
    requires dates != []
    requires IsStreak(dates, today, k1) && IsStreak(dates, today, k2)
    ensures k1 == k2
  {
    var sorted := Sorting.SortInts(dates);
    var m := sorted[|sorted| - 1];
    assert m in multiset(dates);
    forall d | d in dates ensures d <= m {
      assert d in multiset(sorted);
      var j :| 0 <= j < |sorted| && sorted[j] == d;
    }
    assert IsLatest(dates, m);
  }

  /** Reordering keeps the members. */
  lemma SameMembers(a: seq<int>, b: seq<int>)
    requires multiset(a) == multiset(b)
    ensures forall d :: d in a <==> d in b
  {
    forall d ensures d in a <==> d in b {
      assert d in a <==> d in multiset(a);
      assert d in b <==> d in multiset(b);
    }
  }

  /** The last of the sorted dates is the latest date, and the only one. */
  lemma LastIsLatest(dates: seq<int>, sorted: seq<int>)
    requires sorted != [] && multiset(sorted) == multiset(dates)
    requires forall i, j :: 0 <= i < j < |sorted| ==> sorted[i] <= sorted[j]
    ensures IsLatest(dates, sorted[|sorted| - 1])
    ensures forall m :: IsLatest(dates, m) ==> m == sorted[|sorted| - 1]
  {
    SameMembers(dates, sorted);
    var last := sorted[|sorted| - 1];
    forall d | d in dates ensures d <= last {
      var j :| 0 <= j < |sorted| && sorted[j] == d;
    }
  }

  /**
   * The streak loop: sort the dates, give up unless the last is today or
   * yesterday, then walk backward counting gaps of exactly one day and stop
   * at the first gap of more than one (equal dates are passed over).
   */
  method ComputeStreak(dates: seq<int>, today: int) returns (streak: nat)
    ensures streak <= |dates|
    ensures IsStreak(dates, today, streak)
  {
    var sorted := Sorting.SortInts(dates);
    SameMembers(dates, sorted);
    streak := 0;
    if |sorted| == 0 {
      return;
    }
    var last := sorted[|sorted| - 1];
    LastIsLatest(dates, sorted);
    if last != today && last != today - 1 {
      return;
    }
    streak := 1;
    var i := |sorted| - 2;
    while i >= 0
      invariant -1 <= i <= |sorted| - 2
      invariant streak == last - sorted[i + 1] + 1
      invariant 1 <= streak <= |sorted| - 1 - i
      invariant forall d :: sorted[i + 1] <= d <= last ==> d in sorted
      decreases i + 1
    {
      var diff := sorted[i + 1] - sorted[i];
      if diff == 1 {
        streak := streak + 1;
      } else if diff > 1 {
        break;
      }
      i := i - 1;
    }
    assert last - streak == sorted[i + 1] - 1;
    DayBeforeRunMissing(sorted, i);
    RunEndingAtLatest(dates, sorted, today, last, streak);
  }

  /**
   * In an ascending list, the day before position `i + 1` is missing when
   * that position is the first one or follows a gap of more than a day.
   */
  lemma DayBeforeRunMissing(sorted: seq<int>, i: int)
    requires forall a, b :: 0 <= a < b < |sorted| ==> sorted[a] <= sorted[b]
    requires -1 <= i && i + 1 < |sorted|
    requires i >= 0 ==> sorted[i + 1] - sorted[i] > 1
    ensures sorted[i + 1] - 1 !in sorted
  {
    forall k | 0 <= k < |sorted| ensures sorted[k] != sorted[i + 1] - 1 {
      if k <= i {
        assert sorted[k] <= sorted[i];
      } else {
        assert sorted[i + 1] <= sorted[k];
      }
    }
  }

  /** A run of days ending at the latest date, with the day before it missing, is the streak. */
  lemma RunEndingAtLatest(dates: seq<int>, sorted: seq<int>, today: int, last: int, streak: int)
    requires forall d :: d in dates <==> d in sorted
    requires IsLatest(dates, last) && forall m :: IsLatest(dates, m) ==> m == last
    requires last == today || last == today - 1
    requires streak >= 1 && (forall d :: last - streak < d <= last ==> d in sorted) && last - streak !in sorted
    ensures IsStreak(dates, today, streak)
  {
  }

  // ------------------------------------------------------------- breathing stats

  type SessionRecord = Breathe.SessionRecord

  datatype BreathStats = BreathStats(totalSessions: int, totalCycles: int, topMood: string)

  const DefaultBreathStats := BreathStats(0, 0, "N/A")

  function TotalCycles(rs: seq<SessionRecord>): int {
    if rs == [] then 0 else TotalCycles(rs[..|rs| - 1]) + rs[|rs| - 1].cycles
  }

  /** The record counts towards mood `m` (`if (s.moodAfter)`). */
  predicate HasMood(r: SessionRecord, m: string) {
    Breathe.Truthy(r.moodAfter) && r.moodAfter.value == m
  }

  /** Number of records whose mood is `m`. */
  function MoodTally(rs: seq<SessionRecord>, m: string): (n: nat)
    ensures n <= |rs|
  {
    if rs == [] then 0 else MoodTally(rs[..|rs| - 1], m) + (if HasMood(rs[|rs| - 1], m) then 1 else 0)
  }

  /** A mood's tally is 0 exactly when no record has that mood. */
  lemma {:induction false} TallyZeroIffAbsent(rs: seq<SessionRecord>, m: string)
    ensures MoodTally(rs, m) == 0 <==> forall k :: 0 <= k < |rs| ==> !HasMood(rs[k], m)
  {
    if rs != [] {
      var prev := rs[..|rs| - 1];
      TallyZeroIffAbsent(prev, m);
      assert forall k :: 0 <= k < |prev| ==> prev[k] == rs[k];
    }
  }

  /** The keys of `moodCounts` in insertion order: each mood once, in the order first seen. */
  function SeenMoods(rs: seq<SessionRecord>): (ls: seq<string>)
    ensures forall i, j :: 0 <= i < j < |ls| ==> ls[i] != ls[j]
    ensures ls == [] <==> forall k :: 0 <= k < |rs| ==> !Breathe.Truthy(rs[k].moodAfter)
  {
    if rs == [] then []
    else
      var prev := SeenMoods(rs[..|rs| - 1]);
      var r := rs[|rs| - 1];
      assert forall k :: 0 <= k < |rs| - 1 ==> rs[..|rs| - 1][k] == rs[k];
      if Breathe.Truthy(r.moodAfter) && r.moodAfter.value !in prev then prev + [r.moodAfter.value] else prev
  }

  /** The seen moods are exactly the moods some record has. */
  lemma {:induction false} SeenMoodsAreRecorded(rs: seq<SessionRecord>)
    ensures forall m :: m in SeenMoods(rs) <==> exists k :: 0 <= k < |rs| && HasMood(rs[k], m)
  {
    if rs != [] {
      var prev := rs[..|rs| - 1];
      SeenMoodsAreRecorded(prev);
      assert forall k :: 0 <= k < |prev| ==> prev[k] == rs[k];
      forall m | m in SeenMoods(rs) ensures exists k :: 0 <= k < |rs| && HasMood(rs[k], m) {
        if m !in SeenMoods(prev) {
          assert HasMood(rs[|rs| - 1], m);
        }
      }
      forall m | exists k :: 0 <= k < |rs| && HasMood(rs[k], m) ensures m in SeenMoods(rs) {
        var k :| 0 <= k < |rs| && HasMood(rs[k], m);
        if k < |prev| {
          assert HasMood(prev[k], m);
        }
      }
    }
  }

  /** How one more record extends the seen moods and the tallies. */
  lemma SeenStep(rs: seq<SessionRecord>, i: nat)
    requires i < |rs|
    ensures SeenMoods(rs[..i + 1]) ==
      if Breathe.Truthy(rs[i].moodAfter) && rs[i].moodAfter.value !in SeenMoods(rs[..i])
      then SeenMoods(rs[..i]) + [rs[i].moodAfter.value] else SeenMoods(rs[..i])
  {
    assert rs[..i + 1][..i] == rs[..i];
  }

  lemma TallyStep(rs: seq<SessionRecord>, i: nat, m: string)
    requires i < |rs|
    ensures MoodTally(rs[..i + 1], m) == MoodTally(rs[..i], m) + (if HasMood(rs[i], m) then 1 else 0)
  {
    assert rs[..i + 1][..i] == rs[..i];
  }

  /**
   * The `forEach` that fills `moodCounts`: the object's keys, in insertion
   * order, and the count stored under each.
   */
  method CountMoods(rs: seq<SessionRecord>) returns (keys: seq<string>, counts: map<string, nat>)
    ensures keys == SeenMoods(rs)
    ensures forall m :: m in counts <==> m in keys
    ensures forall m :: m in counts ==> counts[m] == MoodTally(rs, m)
  {
    keys, counts := [], map[];
    assert rs[..0] == [];
    var i := 0;
    while i < |rs|
      invariant 0 <= i <= |rs|
      invariant Counted(rs[..i], keys, counts)
    {
      ghost var keys0, counts0 := keys, counts;
      var r := rs[i];
      if Breathe.Truthy(r.moodAfter) {
        var m := r.moodAfter.value;
        if m !in counts {
          keys := keys + [m];
        }
        counts := counts[m := (if m in counts then counts[m] else 0) + 1];
      }
      CountedStep(rs, i, keys0, counts0, keys, counts);
      i := i + 1;
    }
    assert rs[..|rs|] == rs;
  }

  /** `keys` and `counts` are what the `forEach` has built after the records `rs`. */
  ghost predicate Counted(rs: seq<SessionRecord>, keys: seq<string>, counts: map<string, nat>) {
    && keys == SeenMoods(rs)
    && (forall m :: m in counts <==> m in keys)
    && (forall m :: m in counts ==> counts[m] == MoodTally(rs, m))
  }

  /** One turn of the `forEach` extends `Counted` by one record. */
  lemma CountedStep(rs: seq<SessionRecord>, i: nat, keys0: seq<string>, counts0: map<string, nat>,
                    keys: seq<string>, counts: map<string, nat>)
    requires i < |rs| && Counted(rs[..i], keys0, counts0)
    requires var r := rs[i];
      if Breathe.Truthy(r.moodAfter) then
        var m := r.moodAfter.value;
        && keys == (if m in counts0 then keys0 else keys0 + [m])
        && counts == counts0[m := (if m in counts0 then counts0[m] else 0) + 1]
      else keys == keys0 && counts == counts0
    ensures Counted(rs[..i + 1], keys, counts)
  {
    SeenStep(rs, i);
    var r := rs[i];
    if Breathe.Truthy(r.moodAfter) {
      var m := r.moodAfter.value;
      if m !in counts0 {
        UnseenIsUntallied(rs[..i], m);
      }
      forall n | n in counts ensures counts[n] == MoodTally(rs[..i + 1], n) {
        TallyStep(rs, i, n);
        if n != m {
          assert n in counts0;
        }
      }
    } else {
      forall n | n in counts ensures counts[n] == MoodTally(rs[..i + 1], n) {
        TallyStep(rs, i, n);
      }
    }
  }

  /** A mood not among the seen ones has a tally of 0. */
  lemma UnseenIsUntallied(rs: seq<SessionRecord>, m: string)
    requires m !in SeenMoods(rs)
    ensures MoodTally(rs, m) == 0
  {
    SeenMoodsAreRecorded(rs);
    TallyZeroIffAbsent(rs, m);
  }

  /** The position of the first largest count: where a stable descending sort puts its first element. */
  function FirstMax(keys: seq<string>, counts: map<string, nat>): (i: nat)
    requires |keys| > 0 && forall k :: 0 <= k < |keys| ==> keys[k] in counts
    ensures i < |keys|
    ensures forall j :: 0 <= j < |keys| ==> counts[keys[j]] <= counts[keys[i]]
    ensures forall j :: 0 <= j < i ==> counts[keys[j]] < counts[keys[i]]
  {
    if |keys| == 1 then 0
    else
      var i := FirstMax(keys[..|keys| - 1], counts);
      if counts[keys[|keys| - 1]] > counts[keys[i]] then |keys| - 1 else i
  }

  /**
   * The breathing statistics the effect leaves, from the previous ones
   * `prev`: recomputed only when there is a record and the previous total is
   * still 0, with the first of the most frequent moods, or 'N/A' when no
   * record has a mood; otherwise `prev` stays.
   */
  ghost predicate BreathStatsAfter(rs: seq<SessionRecord>, prev: BreathStats, s: BreathStats) {
    && (!(|rs| > 0 && prev.totalSessions == 0) ==> s == prev)
    && (|rs| > 0 && prev.totalSessions == 0 ==>
      && s.totalSessions == |rs| && s.totalCycles == TotalCycles(rs)
      && ((forall k :: 0 <= k < |rs| ==> !Breathe.Truthy(rs[k].moodAfter)) ==> s.topMood == "N/A")
      && ((exists k :: 0 <= k < |rs| && Breathe.Truthy(rs[k].moodAfter)) ==>
            exists i :: 0 <= i < |SeenMoods(rs)| && SeenMoods(rs)[i] == s.topMood
              && (forall j :: 0 <= j < |SeenMoods(rs)| ==> MoodTally(rs, SeenMoods(rs)[j]) <= MoodTally(rs, s.topMood))
              && (forall j :: 0 <= j < i ==> MoodTally(rs, SeenMoods(rs)[j]) < MoodTally(rs, s.topMood))))
  }

  /**
   * A session appended by `saveSession` shows on the analytics page as one
   * more session, its cycles added to the total, one more count for its own
   * mood and none for any other, and, since it has a mood, a top mood that
   * some record has.
   */
  lemma SavedSessionCounts(rs: seq<SessionRecord>, rec: SessionRecord, prev: BreathStats, s: BreathStats)
    requires prev.totalSessions == 0 && BreathStatsAfter(rs + [rec], prev, s)
    ensures s.totalSessions == |rs| + 1
    ensures s.totalCycles == TotalCycles(rs) + rec.cycles
    ensures forall m :: MoodTally(rs + [rec], m) == MoodTally(rs, m) + (if HasMood(rec, m) then 1 else 0)
    ensures Breathe.Truthy(rec.moodAfter) ==> s.topMood in SeenMoods(rs + [rec])
  {
    var all := rs + [rec];
    assert all[..|rs|] == rs;
    if Breathe.Truthy(rec.moodAfter) {
      assert all[|rs|] == rec;
    }
  }

  /** The breathing statistics as the effect computes them. */
  method ComputeBreathStats(rs: seq<SessionRecord>, prev: BreathStats) returns (s: BreathStats)
    ensures BreathStatsAfter(rs, prev, s)
  {
    if !(|rs| > 0 && prev.totalSessions == 0) {
      return prev;
    }
    var keys, counts := CountMoods(rs);
    var top := "N/A";
    if |keys| > 0 {
      var i := FirstMax(keys, counts);
      top := keys[i];
    }
    s := BreathStats(|rs|, TotalCycles(rs), top);
  }

  // ------------------------------------------------------------- the page

  datatype Range = Week | Month | Year

  /**
   * The journal statistics the effect leaves, from the previous ones `prev`:
   * unchanged when no entry is filled; otherwise the number of filled
   * entries, the label of their average mood and their day streak.
   */
  ghost predicate StatsAfter(entries: seq<Entry>, today: int, prev: Stats, s: Stats) {
    var filled := FilledEntries(entries);
    && (filled == [] ==> s == prev)
    && (filled != [] ==> s.totalEntries == |filled| && s.avgMood == AverageMoodLabel(filled)
                         && IsStreak(DatesOf(filled), today, s.currentStreak))
  }

  /**
   * The analytics page: the selected range, the chart data and the two
   * statistics records, recomputed by the effect whenever the range changes.
   */
  class InsightsPage {
    const journal: Journal.Store
    const records: seq<SessionRecord>
    const today: int
    const current: YearMonth
    const monthOf: int -> YearMonth
    var timeRange: Range
    var daily: seq<DayPoint>
    var monthly: seq<MonthPoint>
    var stats: Stats
    var breathStats: BreathStats

    /** The effect body for the current range. */
    method Refresh()
      requires ValidMonth(current)
      modifies this`daily, this`monthly, this`stats, this`breathStats
      ensures timeRange == Week ==> daily == DailySeries(journal, today, 7)
      ensures timeRange == Month ==> daily == DailySeries(journal, today, 30)
      ensures timeRange == Year ==> monthly == YearSeries(Journal.Values(journal), current, monthOf)
      ensures timeRange == Year ==> daily == old(daily)
      ensures timeRange != Year ==> monthly == old(monthly)
      ensures StatsAfter(Journal.Values(journal), today, old(stats), stats)
      ensures BreathStatsAfter(records, old(breathStats), breathStats)
    {
      var entries := Journal.Values(journal);
      match timeRange {
        case Week => daily := DailySeries(journal, today, 7);
        case Month => daily := DailySeries(journal, today, 30);
        case Year => monthly := YearSeries(entries, current, monthOf);
      }
      var filled := FilledEntries(entries);
      if filled != [] {
        var streak := ComputeStreak(DatesOf(filled), today);
        stats := Stats(|filled|, AverageMoodLabel(filled), streak);
      }
      breathStats := ComputeBreathStats(records, breathStats);
    }

    /** The first render: month range, default statistics, then the effect. */
    constructor (journal: Journal.Store, records: seq<SessionRecord>, today: int,
                 current: YearMonth, monthOf: int -> YearMonth)
      requires ValidMonth(current)
      ensures this.journal == journal && this.records == records && this.today == today
      ensures this.current == current && this.monthOf == monthOf && timeRange == Month
      ensures daily == DailySeries(journal, today, 30) && monthly == []
      ensures StatsAfter(Journal.Values(journal), today, DefaultStats, stats)
      ensures BreathStatsAfter(records, DefaultBreathStats, breathStats)
    {
      this.journal := journal;
      this.records := records;
      this.today := today;
      this.current := current;
      this.monthOf := monthOf;
      timeRange := Month;
      daily := [];
      monthly := [];
      stats := DefaultStats;
      breathStats := DefaultBreathStats;
      new;
      Refresh();
    }

    /** A range button: select the range and run the effect again. */
    method SetTimeRange(r: Range)
      requires ValidMonth(current)
      modifies this`timeRange, this`daily, this`monthly, this`stats, this`breathStats
      ensures timeRange == r
      ensures r == Week ==> daily == DailySeries(journal, today, 7)
      ensures r == Month ==> daily == DailySeries(journal, today, 30)
      ensures r == Year ==> monthly == YearSeries(Journal.Values(journal), current, monthOf)
      ensures r == Year ==> daily == old(daily)
      ensures r != Year ==> monthly == old(monthly)
      ensures StatsAfter(Journal.Values(journal), today, old(stats), stats)
      ensures BreathStatsAfter(records, old(breathStats), breathStats)
    {
      timeRange := r;
      Refresh();
    }
  }

  /** `filledOverall.map(e => e.date)`. */
  function DatesOf(es: seq<Entry>): (ds: seq<int>)
    ensures |ds| == |es| && forall k :: 0 <= k < |es| ==> ds[k] == es[k].date
  {
    seq(|es|, k requires 0 <= k < |es| => es[k].date)
  }
}
