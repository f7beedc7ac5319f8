/** The weekly mood chart: one bar per entry of the week's mood data, with an emoji on
    top and a weekday label below, and a five-level legend. */
module MoodChart {
  import opened Wrappers

  const DayLabels: seq<string> := ["Mon", "Tue", "Wed", "Thu", "Fri", "Sat", "Sun"]

  const MoodEmojis: seq<string> := ["\U{1F622}", "\U{1F615}", "\U{1F610}", "\U{1F642}", "\U{1F604}"]

  /** The neutral face, also the fallback for a level outside 1..5. */
  const NeutralFace: string := "\U{1F610}"

  /** `getMoodEmoji`: the level's face, or the neutral face when `emojis[level - 1]` is
      undefined. */
  function MoodEmoji(level: int): (e: string)
    ensures e in MoodEmojis
    ensures 1 <= level <= 5 ==> e == MoodEmojis[level - 1]
    ensures e == NeutralFace <==> level == 3 || !(1 <= level <= 5)
  {
    if 1 <= level <= 5 then MoodEmojis[level - 1] else NeutralFace
  }

  /** The five levels have five different faces. */
  lemma MoodEmojiDistinguishesLevels(a: int, b: int)
    requires 1 <= a <= 5 && 1 <= b <= 5 && a != b
    ensures MoodEmoji(a) != MoodEmoji(b)
  {
  }

  /** The bar's height, in percent of the chart. */
  function BarHeight(value: int): (h: int)
    ensures 1 <= value <= 5 ==> 20 <= h <= 100 && h % 20 == 0
    ensures value <= 0 ==> h <= 0
    ensures value > 5 ==> h > 100
  {
    value * 20
  }

  /** A zero value has no bar, and each step of the value adds 20 percent, so the height
      is 20 percent per mood point, also past 5, where the bar overflows the chart. */
  lemma BarHeightSteps(v: int)
    ensures BarHeight(0) == 0
    ensures BarHeight(v + 1) == BarHeight(v) + 20
    ensures BarHeight(6) == 120
  {
  }

  /** A higher mood never gets a lower bar. */
  lemma BarHeightMonotone(a: int, b: int)
    requires a <= b
    ensures BarHeight(a) <= BarHeight(b)
  {
  }

  /** A rendered bar; its day label is undefined past the seventh entry. */
  datatype Bar = Bar(height: int, emoji: string, day: Option<string>)

  function DayLabel(index: int): (l: Option<string>)
    ensures l.Some? <==> 0 <= index < 7
  {
    if 0 <= index < |DayLabels| then Some(DayLabels[index]) else None
  }

  /** The bars of `moodData.map`: entry i gives bar i, labelled with the i-th weekday. */
  function Bars(moodData: seq<int>): (bars: seq<Bar>)
    ensures |bars| == |moodData|
    ensures forall i :: 0 <= i < |moodData| ==>
              bars[i] == Bar(BarHeight(moodData[i]), MoodEmoji(moodData[i]), DayLabel(i))
  {
    seq(|moodData|, i requires 0 <= i < |moodData| => Bar(BarHeight(moodData[i]), MoodEmoji(moodData[i]), DayLabel(i)))
  }

  /** A week of seven entries is labelled Monday to Sunday, every bar labelled. */
  lemma WeekIsFullyLabelled(moodData: seq<int>)
    requires |moodData| == 7
    ensures forall i :: 0 <= i < 7 ==> Bars(moodData)[i].day == Some(DayLabels[i])
    ensures Bars(moodData)[0].day == Some("Mon") && Bars(moodData)[6].day == Some("Sun")
  {
  }

  /** The legend's text: 1 to 4 by name, any other value "Excellent". */
  function LegendLabel(level: int): (l: string)
    ensures l == "Excellent" <==> level !in {1, 2, 3, 4}
  {
    if level == 1 then "Very Bad"
    else if level == 2 then "Bad"
    else if level == 3 then "Neutral"
    else if level == 4 then "Good"
    else "Excellent"
  }

  /** The legend row for levels 1 to 5. */
  function Legend(): (entries: seq<(string, string)>)
    ensures |entries| == 5
    ensures forall i :: 0 <= i < 5 ==> entries[i] == (MoodEmoji(i + 1), LegendLabel(i + 1))
  {
    seq(5, i requires 0 <= i < 5 => (MoodEmoji(i + 1), LegendLabel(i + 1)))
  }

  /** The legend pairs each face with its name, saddest first. */
  lemma LegendReadsInOrder()
    ensures Legend() == [("\U{1F622}", "Very Bad"), ("\U{1F615}", "Bad"), ("\U{1F610}", "Neutral"),
                         ("\U{1F642}", "Good"), ("\U{1F604}", "Excellent")]
  {
  }
}
