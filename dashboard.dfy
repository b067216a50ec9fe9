/**
 * The dashboard's state outside the voice companion
 * (frontend/src/pages/Dashboard.jsx): the greeting for the hour and the
 * one-tap mood of the day, kept under `mlh_daily_mood` together with the
 * day it was chosen. The hour and the day (`YYYY-MM-DD`) are parameters.
 */
module Dashboard {
  import opened Wrappers

  const Morning := "Good Morning"
  const Afternoon := "Good Afternoon"
  const Evening := "Good Evening"

  /** The greeting for the hour of the local clock. */
  function GreetingFor(hour: int): (g: string)
    ensures g == Morning <==> hour < 12
    ensures g == Afternoon <==> 12 <= hour < 18
    ensures g == Evening <==> 18 <= hour
  {
    if hour < 12 then Morning
    else if hour < 18 then Afternoon
    else Evening
  }

  /** Rank of a greeting in the day: morning, afternoon, evening. */
  function PartOfDay(g: string): nat {
    if g == Morning then 0 else if g == Afternoon then 1 else 2
  }

  /** A later hour never gets an earlier greeting. */
  lemma GreetingAdvancesWithTheDay(h1: int, h2: int)
    requires h1 <= h2
    ensures PartOfDay(GreetingFor(h1)) <= PartOfDay(GreetingFor(h2))
  {
  }

  /** The five mood buttons; the selection is a button's index. */
  const MoodLabels: seq<string> := ["Great", "Okay", "Low", "Anxious", "Upset"]

  /** The record under `mlh_daily_mood`. */
  datatype DailyMood = DailyMood(date: string, mood: int)

  /** The selection restored on load: the saved mood, only if it was chosen today. */
  function InitialMood(saved: Option<DailyMood>, today: string): (m: Option<int>)
    ensures m.Some? <==> saved.Some? && saved.value.date == today
    ensures m.Some? ==> m.value == saved.value.mood
  {
    if saved.Some? && saved.value.date == today then Some(saved.value.mood) else None
  }

  /** A mood chosen on one day is not shown on another. */
  lemma MoodExpiresOvernight(chosenOn: string, today: string, i: int)
    requires chosenOn != today
    ensures InitialMood(Some(DailyMood(chosenOn, i)), today) == None
  {
  }

  class DashboardPage {
    const greeting: string
    var selectedMood: Option<int>
    var stored: Option<DailyMood>

    constructor (saved: Option<DailyMood>, today: string, hour: int)
      ensures stored == saved
      ensures selectedMood == InitialMood(saved, today)
      ensures greeting == GreetingFor(hour)
    {
      stored := saved;
      selectedMood := InitialMood(saved, today);
      greeting := GreetingFor(hour);
    }

    /** `handleMoodSelect`: select button `i` and save it with today's date. */
    method SelectMood(i: nat, today: string)
      requires i < |MoodLabels|
      modifies this`selectedMood, this`stored
      ensures selectedMood == Some(i)
      ensures stored == Some(DailyMood(today, i))
    {
      selectedMood := Some(i);
      stored := Some(DailyMood(today, i));
    }
  }

  /**
   * A mood picked and then the page opened again: the same day it is still
   * selected; on a later day nothing is.
   */
  method SelectThenReopen(page: DashboardPage, i: nat, today: string, later: string, hour: int)
      returns (sameDay: DashboardPage, nextDay: DashboardPage)
    requires i < |MoodLabels| && later != today
    modifies page
    ensures sameDay.selectedMood == Some(i)
    ensures nextDay.selectedMood == None
    ensures fresh(sameDay) && fresh(nextDay)
  {
    page.SelectMood(i, today);
    sameDay := new DashboardPage(page.stored, today, hour);
    nextDay := new DashboardPage(page.stored, later, hour);
  }
}
