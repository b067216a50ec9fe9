/**
 * The calendar arithmetic of the journal's month view: the length of a month
 * (`daysInMonth` in frontend/src/pages/Journal.jsx) and stepping the
 * displayed (year, month) backward and forward with the year wrapping.
 * Months are numbered 0..11 as JavaScript's `Date` numbers them.
 */
module Calendar {

  datatype YearMonth = YearMonth(year: int, month: int)

  predicate ValidMonth(ym: YearMonth) {
    0 <= ym.month <= 11
  }

  /** The Date constructor reads a two-digit year 0..99 as 1900..1999. */
  function DateYear(year: int): int {
    if 0 <= year <= 99 then 1900 + year else year
  }

  /** Gregorian leap-year rule. */
  predicate IsLeapYear(y: int) {
    y % 4 == 0 && (y % 100 != 0 || y % 400 == 0)
  }

  /**
   * `new Date(year, month + 1, 0).getDate()`: day 0 of the following month
   * is the last day of `month`.
   */
  function DaysInMonth(month: int, year: int): (n: int)
    requires 0 <= month <= 11
    ensures 28 <= n <= 31
    ensures month == 1 ==> n == (if IsLeapYear(DateYear(year)) then 29 else 28)
    ensures month != 1 ==> n == (if month in {3, 5, 8, 10} then 30 else 31)
  {
    if month == 1 then (if IsLeapYear(DateYear(year)) then 29 else 28)
    else if month in {3, 5, 8, 10} then 30
    else 31
  }

  function MonthDaysFrom(month: int, year: int): int
    requires 0 <= month <= 12
    decreases 12 - month
  {
    if month == 12 then 0 else DaysInMonth(month, year) + MonthDaysFrom(month + 1, year)
  }

  /** The twelve month lengths add up to the length of the year. */
  lemma YearLength(year: int)
    ensures MonthDaysFrom(0, year) == if IsLeapYear(DateYear(year)) then 366 else 365
  {
    assert MonthDaysFrom(11, year) == 31;
    assert MonthDaysFrom(6, year) == 184;
  }

  /** `handlePrevMonth`: January steps back to December of the previous year. */
  function PrevMonth(ym: YearMonth): YearMonth {
    if ym.month == 0 then YearMonth(ym.year - 1, 11) else ym.(month := ym.month - 1)
  }

  /** `handleNextMonth`: December steps forward to January of the next year. */
  function NextMonth(ym: YearMonth): YearMonth {
    if ym.month == 11 then YearMonth(ym.year + 1, 0) else ym.(month := ym.month + 1)
  }

  /** Counting months from year 0: both steps move this index by exactly one. */
  function MonthIndex(ym: YearMonth): int {
    ym.year * 12 + ym.month
  }

  /** Only January and December change the year, and they wrap to the other end. */
  lemma YearWraps(ym: YearMonth)
    requires ValidMonth(ym)
    ensures PrevMonth(ym).year == if ym.month == 0 then ym.year - 1 else ym.year
    ensures ym.month == 0 ==> PrevMonth(ym).month == 11
    ensures NextMonth(ym).year == if ym.month == 11 then ym.year + 1 else ym.year
    ensures ym.month == 11 ==> NextMonth(ym).month == 0
  {
  }

  /** Valid months with the same index are the same month. */
  lemma SameIndexSameMonth(a: YearMonth, b: YearMonth)
    requires ValidMonth(a) && ValidMonth(b) && MonthIndex(a) == MonthIndex(b)
    ensures a == b
  {
  }

  lemma StepsMoveByOneMonth(ym: YearMonth)
    requires ValidMonth(ym)
    ensures ValidMonth(PrevMonth(ym)) && ValidMonth(NextMonth(ym))
    ensures MonthIndex(PrevMonth(ym)) == MonthIndex(ym) - 1
    ensures MonthIndex(NextMonth(ym)) == MonthIndex(ym) + 1
  {
  }

  lemma NextThenPrev(ym: YearMonth)
    requires ValidMonth(ym)
    ensures PrevMonth(NextMonth(ym)) == ym
  {
  }

  lemma PrevThenNext(ym: YearMonth)
    requires ValidMonth(ym)
    ensures NextMonth(PrevMonth(ym)) == ym
  {
  }

  /** `k` steps back from `ym`. */
  function MonthsBack(ym: YearMonth, k: nat): (r: YearMonth)
    requires ValidMonth(ym)
    ensures ValidMonth(r)
    ensures MonthIndex(r) == MonthIndex(ym) - k
    decreases k
  {
    if k == 0 then ym
    else
      StepsMoveByOneMonth(ym);
      MonthsBack(PrevMonth(ym), k - 1)
  }
}
