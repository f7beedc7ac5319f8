/** The standalone wellness dashboard: today's mood and stress level, the streak, the
    logged activities, the week's mood data and the daily journal entry being edited. */
module WellnessDashboard {
  import opened Insights
  import MoodChart

  /** The journal entry being edited; `date` is the ISO day the page was loaded or last
      submitted on. */
  datatype DailyEntry = DailyEntry(mood: int, stressLevel: int, activities: seq<Activity>,
                                   notes: string, date: string)

  const Emojis: seq<string> := ["\U{1F622}", "\U{1F615}", "\U{1F610}", "\U{1F642}", "\U{1F604}"]

  /** `getMoodEmoji` of the dashboard: `emojis[level - 1]`, or the neutral face when that
      is undefined. */
  function MoodEmoji(level: int): (e: string)
    ensures e in Emojis
    ensures 1 <= level <= 5 ==> e == Emojis[level - 1]
    ensures !(1 <= level <= 5) ==> e == "\U{1F610}"
  {
    if 1 <= level <= 5 then Emojis[level - 1] else "\U{1F610}"
  }

  /** The dashboard and the chart show the same face for every level. */
  lemma EmojiAgreesWithChart(level: int)
    ensures MoodEmoji(level) == MoodChart.MoodEmoji(level)
  {
  }

  /** The slot of the week array for a `getDay` value (0 is Sunday): Monday is slot 0 and
      Sunday slot 6. */
  function WeekdaySlot(day: int): (slot: int)
    requires 0 <= day <= 6
    ensures 0 <= slot <= 6
    ensures (slot + 1) % 7 == day
  {
    if day == 0 then 6 else day - 1
  }

  /** Different days get different slots, so each slot belongs to one weekday. */
  lemma WeekdaySlotInjective(d1: int, d2: int)
    requires 0 <= d1 <= 6 && 0 <= d2 <= 6 && d1 != d2
    ensures WeekdaySlot(d1) != WeekdaySlot(d2)
  {
  }

  /** The names of the `getDay` values, Sunday first. */
  const DayNames: seq<string> := ["Sun", "Mon", "Tue", "Wed", "Thu", "Fri", "Sat"]

  /** A mood submitted on a weekday is drawn in the chart above that weekday's label. */
  lemma SlotMatchesChartLabel(day: int)
    requires 0 <= day <= 6
    ensures MoodChart.DayLabels[WeekdaySlot(day)] == DayNames[day]
  {
  }

  /** The week after recording a mood for `day`. */
  function RecordMood(week: seq<int>, day: int, mood: int): (r: seq<int>)
    requires |week| == 7 && 0 <= day <= 6
    ensures |r| == 7
    ensures r[WeekdaySlot(day)] == mood
    ensures forall i :: 0 <= i < 7 && i != WeekdaySlot(day) ==> r[i] == week[i]
  {
    week[WeekdaySlot(day) := mood]
  }

  /** Recording twice on the same day keeps only the later mood. */
  lemma RecordMoodOverwrites(week: seq<int>, day: int, m1: int, m2: int)
    requires |week| == 7 && 0 <= day <= 6
    ensures RecordMood(RecordMood(week, day, m1), day, m2) == RecordMood(week, day, m2)
  {
  }

  /** The submitted mood shows in the chart: the bar for the day's slot carries its height
      and face, under the day's name. */
  lemma SubmittedMoodIsCharted(week: seq<int>, day: int, mood: int)
    requires |week| == 7 && 0 <= day <= 6
    ensures var bar := MoodChart.Bars(RecordMood(week, day, mood))[WeekdaySlot(day)];
            && bar.height == MoodChart.BarHeight(mood)
            && bar.emoji == MoodEmoji(mood)
            && bar.day.Some? && bar.day.value == DayNames[day]
  {
    SlotMatchesChartLabel(day);
  }

  class Dashboard {
    var mood: int
    var stressLevel: int
    var streak: int
    var activities: seq<Activity>
    var weeklyMoodData: seq<int>
    var dailyEntry: DailyEntry

    /** The week array always has one entry per weekday. */
    predicate Valid()
      reads this
    {
      |weeklyMoodData| == 7
    }

    /** The initial state: mood 3, stress 2, a five-day streak, four sample activities
        and a sample week. */
    constructor (today: string)
      ensures Valid()
      ensures mood == 3 && stressLevel == 2 && streak == 5
      ensures activities == [Activity(1, "Study", 2), Activity(2, "Exercise", 4),
                             Activity(3, "Social Time", 5), Activity(4, "Sleep", 3)]
      ensures weeklyMoodData == [3, 4, 2, 3, 5, 4, 3]
      ensures dailyEntry == DailyEntry(3, 2, [], "", today)
    {
      mood := 3;
      stressLevel := 2;
      streak := 5;
      activities := [Activity(1, "Study", 2), Activity(2, "Exercise", 4),
                     Activity(3, "Social Time", 5), Activity(4, "Sleep", 3)];
      weeklyMoodData := [3, 4, 2, 3, 5, 4, 3];
      dailyEntry := DailyEntry(3, 2, [], "", today);
    }

    /** `handleAddActivity`: the activity is appended to the log and to today's entry. */
    method AddActivity(a: Activity)
      modifies this
      ensures activities == old(activities) + [a]
      ensures dailyEntry == old(dailyEntry).(activities := old(dailyEntry).activities + [a])
      ensures mood == old(mood) && stressLevel == old(stressLevel) && streak == old(streak)
      ensures weeklyMoodData == old(weeklyMoodData)
    {
      activities := activities + [a];
      dailyEntry := dailyEntry.(activities := dailyEntry.activities + [a]);
    }

    /** A mood button: sets the mood and today's entry's mood. */
    method SetMood(level: int)
      modifies this
      ensures mood == level && dailyEntry == old(dailyEntry).(mood := level)
      ensures stressLevel == old(stressLevel) && streak == old(streak)
      ensures activities == old(activities) && weeklyMoodData == old(weeklyMoodData)
    {
      mood := level;
      dailyEntry := dailyEntry.(mood := level);
    }

    /** A stress button: sets the stress level and today's entry's stress level. */
    method SetStressLevel(level: int)
      modifies this
      ensures stressLevel == level && dailyEntry == old(dailyEntry).(stressLevel := level)
      ensures mood == old(mood) && streak == old(streak)
      ensures activities == old(activities) && weeklyMoodData == old(weeklyMoodData)
    {
      stressLevel := level;
      dailyEntry := dailyEntry.(stressLevel := level);
    }

    /** The journal text area. */
    method SetNotes(notes: string)
      modifies this
      ensures dailyEntry == old(dailyEntry).(notes := notes)
      ensures mood == old(mood) && stressLevel == old(stressLevel) && streak == old(streak)
      ensures activities == old(activities) && weeklyMoodData == old(weeklyMoodData)
    {
      dailyEntry := dailyEntry.(notes := notes);
    }

    /** `handleSubmitDailyEntry` on weekday `day` (0 is Sunday) and ISO date `date`: the
        current mood goes into the day's slot of the week, the entry is reset keeping the
        current mood and stress level, and the streak grows by one. */
    method SubmitDailyEntry(day: int, date: string)
      requires Valid() && 0 <= day <= 6
      modifies this
      ensures Valid()
      ensures weeklyMoodData == RecordMood(old(weeklyMoodData), day, old(mood))
      ensures dailyEntry == DailyEntry(old(mood), old(stressLevel), [], "", date)
      ensures streak == old(streak) + 1
      ensures mood == old(mood) && stressLevel == old(stressLevel) && activities == old(activities)
    {
      var week := weeklyMoodData;
      week := week[WeekdaySlot(day) := mood];
      weeklyMoodData := week;
      dailyEntry := DailyEntry(mood, stressLevel, [], "", date);
      streak := streak + 1;
    }
  }
}
