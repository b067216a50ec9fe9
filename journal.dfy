/**
 * The journal page (frontend/src/pages/Journal.jsx): a store of one entry per
 * calendar day, the editor that loads, edits and saves the selected day's
 * entry, the month calendar and the "recent entries" list.
 *
 * Calendar days are integers (day numbers); the page's clock reading is the
 * pair of `today` and the milliseconds since today's midnight.
 */
module Journal {
  import opened Wrappers
  import opened Text
  import opened Calendar
  import Sorting

  /** A mood button's value: `{ emoji, label }` (the label is `name` here). */
  datatype Mood = Mood(emoji: string, name: string)

  /** One stored entry: `{ text, mood, sleep, stress, date }`. */
  datatype Entry = Entry(text: string, mood: Option<Mood>, sleep: real, stress: int, date: int)

  /**
   * The 'mlh_journal' object: its keys in insertion order with their values,
   * which is the order `Object.values` and `Object.keys` report.
   */
  type Store = seq<(int, Entry)>

  /** The keys of a parsed object are distinct. */
  predicate DistinctKeys(es: Store) {
    forall i, j :: 0 <= i < j < |es| ==> es[i].0 != es[j].0
  }

  /** Position of `key` in the store. */
  function Find(es: Store, key: int): (r: Option<nat>)
    ensures r.Some? ==> r.value < |es| && es[r.value].0 == key
    ensures r.None? ==> forall i :: 0 <= i < |es| ==> es[i].0 != key
  {
    if es == [] then None
    else if es[|es| - 1].0 == key then Some(|es| - 1)
    else Find(es[..|es| - 1], key)
  }

  /** `entries[key]`. */
  function Get(es: Store, key: int): (r: Option<Entry>)
    ensures r.Some? ==> exists i :: 0 <= i < |es| && es[i] == (key, r.value)
    ensures r.None? ==> forall i :: 0 <= i < |es| ==> es[i].0 != key
  {
    match Find(es, key)
    case Some(i) => Some(es[i].1)
    case None => None
  }

  /** `{ ...es, [key]: e }`: an existing key keeps its position, a new key goes last. */
  function Upsert(es: Store, key: int, e: Entry): (r: Store)
    ensures Get(es, key).Some? ==> |r| == |es| && forall i :: 0 <= i < |es| ==> r[i].0 == es[i].0
    ensures Get(es, key).None? ==> |r| == |es| + 1 && r[..|es|] == es && r[|es|] == (key, e)
    ensures forall i :: 0 <= i < |es| && es[i].0 != key ==> r[i] == es[i]
  {
    match Find(es, key)
    case Some(i) => es[i := (key, e)]
    case None => es + [(key, e)]
  }

  /** The upserted key reads back the new entry and every other key is untouched. */
  lemma UpsertGet(es: Store, key: int, e: Entry, other: int)
    requires DistinctKeys(es)
    ensures DistinctKeys(Upsert(es, key, e))
    ensures Get(Upsert(es, key, e), key) == Some(e)
    ensures other != key ==> Get(Upsert(es, key, e), other) == Get(es, other)
    ensures |Upsert(es, key, e)| == if Get(es, key).Some? then |es| else |es| + 1
  {
    var u := Upsert(es, key, e);
    FindUnique(u, key);
    FindUnique(u, other);
    FindUnique(es, other);
  }

  /** UpsertGet for every other key at once. */
  lemma UpsertGetAll(es: Store, key: int, e: Entry)
    requires DistinctKeys(es)
    ensures DistinctKeys(Upsert(es, key, e)) && Get(Upsert(es, key, e), key) == Some(e)
    ensures forall k :: k != key ==> Get(Upsert(es, key, e), k) == Get(es, k)
  {
    UpsertGet(es, key, e, key);
    forall k | k != key
      ensures Get(Upsert(es, key, e), k) == Get(es, k)
    {
      UpsertGet(es, key, e, k);
    }
  }

  /** With distinct keys, a key that sits at index `i` is found at `i`. */
  lemma FindUnique(es: Store, key: int)
    requires DistinctKeys(es)
    ensures forall i :: 0 <= i < |es| && es[i].0 == key ==> Find(es, key) == Some(i)
  {
    if es != [] && es[|es| - 1].0 != key {
      FindUnique(es[..|es| - 1], key);
    }
  }

  /** The values of the store in order: `Object.values(entries)`. */
  function Values(es: Store): (vs: seq<Entry>)
    ensures |vs| == |es|
    ensures forall i :: 0 <= i < |es| ==> vs[i] == es[i].1
  {
    seq(|es|, i requires 0 <= i < |es| => es[i].1)
  }

  // ---------------------------------------------------------------- editor

  /** The editor fields: text, mood, sleep, stress and the saved flag. */
  datatype Editor = Editor(text: string, mood: Option<Mood>, sleep: real, stress: int, saved: bool)

  /** The defaults shown for a day without an entry. */
  const Blank := Editor("", None, 7.0, 3, false)

  /**
   * The date-selection effect: a day with an entry loads it (a falsy sleep
   * becomes 7 and a falsy stress 3) and counts as saved; any other day shows
   * the unsaved defaults.
   */
  function EditorFor(es: Store, key: int): (ed: Editor)
    ensures Get(es, key).None? ==> ed == Blank
    ensures Get(es, key).Some? ==>
      var e := Get(es, key).value;
      && ed.saved && ed.text == e.text && ed.mood == e.mood
      && ed.sleep == (if e.sleep == 0.0 then 7.0 else e.sleep)
      && ed.stress == (if e.stress == 0 then 3 else e.stress)
  {
    match Get(es, key)
    case None => Blank
    case Some(e) =>
      Editor(e.text, e.mood, if e.sleep == 0.0 then 7.0 else e.sleep, if e.stress == 0 then 3 else e.stress, true)
  }

  /** `!entryText.trim() || isSaved`, the disabled state of the save button. */
  function SaveDisabled(text: string, saved: bool): (b: bool)
    ensures b <==> IsBlank(text) || saved
  {
    Trim(text) == [] || saved
  }

  /** Sleep is shown in half-hour steps. */
  predicate HalfHours(x: real) {
    (2.0 * x).Floor as real == 2.0 * x
  }

  /** The '-' button: `Math.max(0, sleep - 0.5)`. */
  function SleepDown(x: real): (r: real)
    ensures x >= 0.5 ==> r == x - 0.5
    ensures x < 0.5 ==> r == 0.0
  {
    if x - 0.5 < 0.0 then 0.0 else x - 0.5
  }

  /** The '+' button: `Math.min(14, sleep + 0.5)`. */
  function SleepUp(x: real): (r: real)
    ensures x <= 13.5 ==> r == x + 0.5
    ensures x > 13.5 ==> r == 14.0
  {
    if x + 0.5 > 14.0 then 14.0 else x + 0.5
  }

  /** Inside the 0.5..13.5 range, each button undoes the other. */
  lemma SleepButtonsUndo(x: real)
    ensures 0.5 <= x <= 14.0 ==> SleepUp(SleepDown(x)) == x
    ensures 0.0 <= x <= 13.5 ==> SleepDown(SleepUp(x)) == x
  {
  }

  /** Both buttons keep a half-hour value inside 0..14 and on the half-hour grid. */
  lemma SleepButtonsStayOnGrid(x: real)
    requires 0.0 <= x <= 14.0 && HalfHours(x)
    ensures 0.0 <= SleepDown(x) <= 14.0 && HalfHours(SleepDown(x))
    ensures 0.0 <= SleepUp(x) <= 14.0 && HalfHours(SleepUp(x))
  {
    var n := (2.0 * x).Floor;
    assert 2.0 * (x - 0.5) == (n - 1) as real;
    assert 2.0 * (x + 0.5) == (n + 1) as real;
    assert (2.0 * 0.0).Floor == 0;
    assert (2.0 * 14.0).Floor == 28;
  }

  // ------------------------------------------------------------- dates

  /** A clock reading: a day number and the milliseconds since its midnight. */
  datatype Instant = Instant(day: int, ms: int)

  const MsPerDay := 86400000

  predicate ValidInstant(t: Instant) {
    0 <= t.ms < MsPerDay
  }

  /**
   * `isFutureDate` as written: `date > today` with `today` set to midnight,
   * which makes any moment of today after midnight "in the future".
   */
  function IsFutureDateAsWritten(t: Instant, today: int): bool {
    t.day > today || (t.day == today && t.ms > 0)
  }

  /** The page opens with `selectedDate = new Date()`: after midnight that reads as the future. */
  lemma OpeningSelectionIsFutureAsWritten(today: int, nowMs: int)
    requires 0 < nowMs < MsPerDay
    ensures IsFutureDateAsWritten(Instant(today, nowMs), today)
  {
  }

  /** `isFutureDate` comparing calendar days, as the comment above it intends. */
  function IsFutureDay(t: Instant, today: int): (b: bool)
    ensures b <==> t.day > today
    ensures t.ms == 0 ==> b == IsFutureDateAsWritten(t, today)
  {
    t.day > today
  }

  /** With days compared, today is never in the future, at any time of day. */
  lemma TodayIsNotFuture(today: int, nowMs: int)
    ensures !IsFutureDay(Instant(today, nowMs), today)
  {
  }

  // ------------------------------------------------------------- calendar grid

  datatype Cell = Empty | Day(d: int, key: int, isSelected: bool, hasEntry: bool, isFuture: bool)

  /** The cell for day `d` of a month whose first day has number `monthStart`. */
  function DayCell(d: int, monthStart: int, selectedDay: int, es: Store, today: int): Cell {
    var key := monthStart + d - 1;
    Day(d, key, key == selectedDay, Get(es, key).Some?, IsFutureDay(Instant(key, 0), today))
  }

  /**
   * `renderCalendarDays`: `startDay` blank cells (the weekday of the 1st,
   * computed by the Date API and taken as an input here) and then one cell
   * per day of the month, in order.
   */
  method RenderCalendarDays(ym: YearMonth, startDay: nat, monthStart: int, selectedDay: int,
                            es: Store, today: int) returns (cells: seq<Cell>)
    requires ValidMonth(ym)
    ensures |cells| == startDay + DaysInMonth(ym.month, ym.year)
    ensures forall i :: 0 <= i < startDay ==> cells[i] == Empty
    ensures forall i :: startDay <= i < |cells| ==>
      cells[i] == DayCell(i - startDay + 1, monthStart, selectedDay, es, today)
  {
    var totalDays := DaysInMonth(ym.month, ym.year);
    cells := [];
    var i := 0;
    while i < startDay
      invariant 0 <= i <= startDay
      invariant |cells| == i
      invariant forall k :: 0 <= k < i ==> cells[k] == Empty
    {
      cells := cells + [Empty];
      i := i + 1;
    }
    var d := 1;
    while d <= totalDays
      invariant 1 <= d <= totalDays + 1
      invariant |cells| == startDay + d - 1
      invariant forall k :: 0 <= k < startDay ==> cells[k] == Empty
      invariant forall k :: startDay <= k < |cells| ==>
        cells[k] == DayCell(k - startDay + 1, monthStart, selectedDay, es, today)
    {
      cells := cells + [DayCell(d, monthStart, selectedDay, es, today)];
      d := d + 1;
    }
  }

  /** Future days are shown but clicking them does nothing. */
  predicate Selectable(c: Cell) {
    c.Day? && !c.isFuture
  }

  lemma FutureCellsAreNotSelectable(cells: seq<Cell>, ym: YearMonth, startDay: nat, monthStart: int,
                                    selectedDay: int, es: Store, today: int, i: int)
    requires ValidMonth(ym)
    requires |cells| == startDay + DaysInMonth(ym.month, ym.year)
    requires forall k :: startDay <= k < |cells| ==>
      cells[k] == DayCell(k - startDay + 1, monthStart, selectedDay, es, today)
    requires startDay <= i < |cells|
    ensures Selectable(cells[i]) <==> monthStart + (i - startDay) <= today
  {
  }

  // ------------------------------------------------------------- recent entries

  function NewestFirst(e: Entry): int { -e.date }

  /** `Object.values(entries).sort((a, b) => b.date - a.date).slice(0, 3)`. */
  function RecentEntries(es: Store): (r: seq<Entry>)
    ensures |r| == if |es| < 3 then |es| else 3
    ensures forall i, j :: 0 <= i < j < |r| ==> r[i].date >= r[j].date
    ensures multiset(r) <= multiset(Values(es))
  {
    var sorted := Sorting.SortBy(Values(es), NewestFirst);
    var n := if |sorted| < 3 then |sorted| else 3;
    Sorting.PrefixOfSorted(sorted, NewestFirst, n);
    sorted[..n]
  }

  /** Every entry left out of the recent list is no newer than the ones shown. */
  lemma RecentAreNewest(es: Store, k: int)
    requires 0 <= k < |es|
    ensures es[k].1 in RecentEntries(es) || es[k].1.date <= RecentEntries(es)[|RecentEntries(es)| - 1].date
  {
    var sorted := Sorting.SortBy(Values(es), NewestFirst);
    var v := es[k].1;
    assert v == Values(es)[k];
    assert v in multiset(sorted);
    var j :| 0 <= j < |sorted| && sorted[j] == v;
    var n := if |sorted| < 3 then |sorted| else 3;
    if j >= n {
      assert NewestFirst(sorted[n - 1]) <= NewestFirst(sorted[j]);
    }
  }

  // ------------------------------------------------------------- the page

  /** The journal page's state, and the 'mlh_journal' item it writes. */
  class JournalPage {
    const today: int
    var selected: Instant
    var view: YearMonth
    var entryText: string
    var selectedMood: Option<Mood>
    var sleep: real
    var stress: int
    var entries: Store
    var isSaved: bool
    /** The 'mlh_journal' item; `None` while nothing was ever saved. */
    var stored: Option<Store>

    function EditorState(): Editor
      reads this
    {
      Editor(entryText, selectedMood, sleep, stress, isSaved)
    }

    predicate Valid()
      reads this
    {
      DistinctKeys(entries) && ValidMonth(view)
    }

    /**
     * Whether the editor is shown rather than "You cannot journal for the
     * future.": as written, through `isFutureDate` on the selected instant.
     */
    function EditorShownAsWritten(): (b: bool)
      reads this
      ensures b <==> selected.day < today || (selected.day == today && selected.ms <= 0)
    {
      !IsFutureDateAsWritten(selected, today)
    }

    /** The same switch with calendar days compared: any day up to today shows the editor. */
    function EditorShown(): (b: bool)
      reads this
      ensures b <==> selected.day <= today
      ensures selected.ms == 0 ==> b == EditorShownAsWritten()
    {
      !IsFutureDay(selected, today)
    }

    /**
     * The initial render and its two effects: the selected date is the
     * opening instant, the calendar shows the current month, the saved
     * object (if any) is loaded and the editor shows the entry for today.
     */
    constructor (now: Instant, month: YearMonth, saved: Option<Store>)
      requires ValidMonth(month)
      requires saved.Some? ==> DistinctKeys(saved.value)
      ensures Valid() && today == now.day && selected == now && view == month && stored == saved
      ensures entries == (if saved.Some? then saved.value else [])
      ensures EditorState() == EditorFor(entries, now.day)
      ensures now.ms > 0 ==> !EditorShownAsWritten()
      ensures EditorShown()
    {
      today := now.day;
      selected := now;
      view := month;
      entries := if saved.Some? then saved.value else [];
      stored := saved;
      new;
      LoadEditor();
    }

    /** The date-selection effect, run whenever `selectedDate` or `entries` change. */
    method LoadEditor()
      modifies this`entryText, this`selectedMood, this`sleep, this`stress, this`isSaved
      ensures EditorState() == EditorFor(entries, selected.day)
    {
      var ed := EditorFor(entries, selected.day);
      entryText, selectedMood, sleep, stress, isSaved := ed.text, ed.mood, ed.sleep, ed.stress, ed.saved;
    }

    /** A click on the calendar cell of day `key`: ignored for future days. */
    method ClickDay(key: int)
      modifies this`selected, this`entryText, this`selectedMood, this`sleep, this`stress, this`isSaved
      ensures key > today ==> selected == old(selected) && EditorState() == old(EditorState())
      ensures key <= today ==> selected == Instant(key, 0) && EditorState() == EditorFor(entries, key)
    {
      if IsFutureDay(Instant(key, 0), today) {
        return;
      }
      selected := Instant(key, 0);
      LoadEditor();
    }

    /** A click on a recent entry: selects its date without the future check. */
    method OpenEntry(e: Entry)
      modifies this`selected, this`entryText, this`selectedMood, this`sleep, this`stress, this`isSaved
      ensures selected == Instant(e.date, 0) && EditorState() == EditorFor(entries, e.date)
    {
      selected := Instant(e.date, 0);
      LoadEditor();
    }

    method ChangeText(s: string)
      modifies this`entryText, this`isSaved
      ensures entryText == s && !isSaved
    {
      entryText := s;
      isSaved := false;
    }

    method ChangeMood(m: Mood)
      modifies this`selectedMood, this`isSaved
      ensures selectedMood == Some(m) && !isSaved
    {
      selectedMood := Some(m);
      isSaved := false;
    }

    method DecreaseSleep()
      modifies this`sleep, this`isSaved
      ensures sleep == SleepDown(old(sleep)) && !isSaved
    {
      sleep := SleepDown(sleep);
      isSaved := false;
    }

    method IncreaseSleep()
      modifies this`sleep, this`isSaved
      ensures sleep == SleepUp(old(sleep)) && !isSaved
    {
      sleep := SleepUp(sleep);
      isSaved := false;
    }

    /** One of the five stress buttons 1..5. */
    method ChooseStress(level: int)
      requires 1 <= level <= 5
      modifies this`stress, this`isSaved
      ensures stress == level && !isSaved
    {
      stress := level;
      isSaved := false;
    }

    /**
     * `handleSave`: writes the editor's fields under the selected day's key,
     * persists the object and marks the entry saved; the change of `entries`
     * then re-runs the date-selection effect.
     */
    method Save()
      requires Valid()
      modifies this`entries, this`stored, this`entryText, this`selectedMood, this`sleep, this`stress, this`isSaved
      ensures Valid()
      ensures Get(entries, selected.day) == Some(Entry(old(entryText), old(selectedMood), old(sleep), old(stress), selected.day))
      ensures forall k :: k != selected.day ==> Get(entries, k) == Get(old(entries), k)
      ensures entries == Upsert(old(entries), selected.day, Entry(old(entryText), old(selectedMood), old(sleep), old(stress), selected.day))
      ensures stored == Some(entries)
      ensures isSaved && EditorState() == EditorFor(entries, selected.day)
    {
      var key := selected.day;
      var e := Entry(entryText, selectedMood, sleep, stress, key);
      var updated := Upsert(entries, key, e);
      UpsertGetAll(entries, key, e);
      entries := updated;
      stored := Some(updated);
      isSaved := true;
      LoadEditor();
    }

    method PrevMonth()
      requires Valid()
      modifies this`view
      ensures Valid() && view == Calendar.PrevMonth(old(view))
    {
      StepsMoveByOneMonth(view);
      view := Calendar.PrevMonth(view);
    }

    method NextMonth()
      requires Valid()
      modifies this`view
      ensures Valid() && view == Calendar.NextMonth(old(view))
    {
      StepsMoveByOneMonth(view);
      view := Calendar.NextMonth(view);
    }
  }
}
