/** The insights page of the standalone dashboard: the most frequent activity, the
    per-activity impact tally, and the count of challenges not yet completed. */
module Insights {
  import opened Seqs

  /** A logged activity (its float `hours` is not read by this page). */
  datatype Activity = Activity(id: int, name: string, mood: int)

  /** A challenge as the page reads it: only its `completed` flag, false when absent. */
  datatype ChallengeItem = ChallengeItem(completed: bool)

  /** One entry of the impact tally. */
  datatype Impact = Impact(totalMood: int, count: int)

  const NoActivities: string := "No activities"

  function Names(acts: seq<Activity>): (ns: seq<string>)
    ensures |ns| == |acts|
    ensures forall i :: 0 <= i < |acts| ==> ns[i] == acts[i].name
  {
    seq(|acts|, i requires 0 <= i < |acts| => acts[i].name)
  }

  /** How many activities carry the name: at most all of them, and some exactly when
      the name was logged. */
  function Occurrences(acts: seq<Activity>, name: string): (n: nat)
    ensures n <= |acts|
    ensures n > 0 <==> name in Names(acts)
  {
    if acts == [] then 0
    else
      var init := acts[..|acts| - 1];
      assert Names(acts) == Names(init) + [acts[|acts| - 1].name];
      Occurrences(init, name) + (if acts[|acts| - 1].name == name then 1 else 0)
  }

  /** The sum of the moods of the activities that carry the name: nothing for a name
      never logged, and between one and five per activity when every mood is a 1..5
      level. */
  function MoodTotal(acts: seq<Activity>, name: string): (t: int)
    ensures name !in Names(acts) ==> t == 0
    ensures (forall a :: a in acts ==> 1 <= a.mood <= 5) ==>
              Occurrences(acts, name) <= t <= 5 * Occurrences(acts, name)
  {
    if acts == [] then 0
    else
      var init := acts[..|acts| - 1];
      assert Names(acts) == Names(init) + [acts[|acts| - 1].name];
      assert forall a :: a in init ==> a in acts;
      MoodTotal(init, name) + (if acts[|acts| - 1].name == name then acts[|acts| - 1].mood else 0)
  }

  /** The keys of the accumulator object, in insertion order: each name once, in order of
      first appearance. */
  function Keys(acts: seq<Activity>): seq<string> {
    Dedup(Names(acts))
  }

  lemma NamesAppend(acts: seq<Activity>, a: Activity)
    ensures Names(acts + [a]) == Names(acts) + [a.name]
  {
  }

  /** The first `reduce`: one pass over the activities, adding one to the name's entry of
      the accumulator (a missing entry counts as 0). Each key's value is its number of
      occurrences, and the keys are the names in order of first appearance. */
  method CountByName(acts: seq<Activity>) returns (keys: seq<string>, counts: map<string, int>)
    ensures keys == Keys(acts)
    ensures counts.Keys == set n | n in keys
    ensures forall n :: n in counts ==> counts[n] == Occurrences(acts, n)
  {
    keys, counts := [], map[];
    var i := 0;
    while i < |acts|
      invariant 0 <= i <= |acts|
      invariant keys == Keys(acts[..i])
      invariant counts.Keys == set n | n in keys
      invariant forall n :: n in counts ==> counts[n] == Occurrences(acts[..i], n)
    {
      var a := acts[i];
      assert acts[..i + 1][..i] == acts[..i];
      NamesAppend(acts[..i], a);
      assert acts[..i + 1] == acts[..i] + [a];
      if a.name in counts {
        counts := counts[a.name := counts[a.name] + 1];
      } else {
        assert a.name !in Names(acts[..i]);
        assert Occurrences(acts[..i], a.name) == 0;
        counts := counts[a.name := 1];
        keys := keys + [a.name];
      }
      i := i + 1;
    }
    assert acts[..i] == acts;
  }

  /** The second `reduce`: the name's entry is created as (0, 0) on first sight, then its
      total mood grows by the activity's mood and its count by one. */
  method ImpactByName(acts: seq<Activity>) returns (keys: seq<string>, impact: map<string, Impact>)
    ensures keys == Keys(acts)
    ensures impact.Keys == set n | n in keys
    ensures forall n :: n in impact ==> impact[n] == Impact(MoodTotal(acts, n), Occurrences(acts, n))
  {
    keys, impact := [], map[];
    var i := 0;
    while i < |acts|
      invariant 0 <= i <= |acts|
      invariant keys == Keys(acts[..i])
      invariant impact.Keys == set n | n in keys
      invariant forall n :: n in impact ==> impact[n] == Impact(MoodTotal(acts[..i], n), Occurrences(acts[..i], n))
    {
      var a := acts[i];
      assert acts[..i + 1][..i] == acts[..i];
      NamesAppend(acts[..i], a);
      assert acts[..i + 1] == acts[..i] + [a];
      if a.name !in impact {
        DedupCorrect(Names(acts[..i]));
        impact := impact[a.name := Impact(0, 0)];
        keys := keys + [a.name];
      }
      var entry := impact[a.name];
      impact := impact[a.name := Impact(entry.totalMood + a.mood, entry.count + 1)];
      i := i + 1;
    }
    assert acts[..i] == acts;
  }

  /** The sum of the counts of the given keys. */
  function SumCounts(keys: seq<string>, acts: seq<Activity>): int {
    if keys == [] then 0
    else SumCounts(keys[..|keys| - 1], acts) + Occurrences(acts, keys[|keys| - 1])
  }

  lemma {:induction false} SumCountsStep(keys: seq<string>, acts: seq<Activity>, a: Activity)
    requires Distinct(keys)
    ensures SumCounts(keys, acts + [a]) == SumCounts(keys, acts) + (if a.name in keys then 1 else 0)
  {
    if keys != [] {
      var init := keys[..|keys| - 1];
      var k := keys[|keys| - 1];
      assert (acts + [a])[..|acts + [a]| - 1] == acts;
      assert keys == init + [k];
      SumCountsStep(init, acts, a);
      assert k !in init;
    }
  }

  lemma SumCountsExtend(keys: seq<string>, k: string, acts: seq<Activity>)
    ensures SumCounts(keys + [k], acts) == SumCounts(keys, acts) + Occurrences(acts, k)
  {
    assert (keys + [k])[..|keys + [k]| - 1] == keys;
  }

  /** The counts of the tally add up to the number of activities. */
  lemma {:induction false} CountsSumToLength(acts: seq<Activity>)
    ensures SumCounts(Keys(acts), acts) == |acts|
  {
    if acts != [] {
      var init := acts[..|acts| - 1];
      var a := acts[|acts| - 1];
      assert acts == init + [a];
      CountsSumToLength(init);
      NamesAppend(init, a);
      DedupCorrect(Names(init));
      SumCountsStep(Keys(init), init, a);
      if a.name !in Keys(init) {
        assert a.name !in Names(init);
        SumCountsExtend(Keys(init), a.name, acts);
      }
    }
  }

  /** The index of the first key whose count is maximal: the head of a stable sort by
      descending count. */
  function FirstMaxIndex(keys: seq<string>, counts: map<string, int>): (i: nat)
    requires keys != [] && forall k :: k in keys ==> k in counts
    ensures i < |keys|
    ensures forall j :: 0 <= j < |keys| ==> counts[keys[j]] <= counts[keys[i]]
    ensures forall j :: 0 <= j < i ==> counts[keys[j]] < counts[keys[i]]
  {
    if |keys| == 1 then 0
    else
      var init := keys[..|keys| - 1];
      assert forall k :: k in init ==> k in keys;
      var m := FirstMaxIndex(init, counts);
      if counts[keys[|keys| - 1]] > counts[init[m]] then |keys| - 1 else m
  }

  /** The count of each name, as the first tally holds it. */
  function CountMap(acts: seq<Activity>): (m: map<string, int>)
    ensures forall k :: k in Keys(acts) ==> k in m && m[k] == Occurrences(acts, k)
  {
    map k | k in Keys(acts) :: Occurrences(acts, k)
  }

  /** The name at the head of the tally's entries sorted by descending count. */
  function TopName(acts: seq<Activity>): (top: string)
    requires acts != []
    ensures top in Keys(acts)
  {
    var keys := Keys(acts);
    KeysAreNames(acts);
    assert acts[0] in acts;
    keys[FirstMaxIndex(keys, CountMap(acts))]
  }

  /** `getMostFrequentActivity`: the name at the head of the sorted entries, falling back
      to "No activities" when there is none or it is the (falsy) empty name. */
  function MostFrequentActivity(acts: seq<Activity>): (r: string)
    ensures acts == [] ==> r == NoActivities
    ensures r == NoActivities || r in Names(acts)
  {
    if acts == [] then NoActivities
    else
      KeysAreNames(acts);
      var top := TopName(acts);
      if top == "" then NoActivities else top
  }

  lemma MostFrequentOfNothing()
    ensures MostFrequentActivity([]) == NoActivities
  {
  }

  /** Every name of the list is a key of the tally, and every key is a name. */
  lemma KeysAreNames(acts: seq<Activity>)
    ensures forall a :: a in acts ==> a.name in Keys(acts)
    ensures forall k :: k in Keys(acts) ==> k in Names(acts)
  {
    DedupCorrect(Names(acts));
    forall a | a in acts ensures a.name in Keys(acts) {
      var i :| 0 <= i < |acts| && acts[i] == a;
      assert Names(acts)[i] == a.name;
    }
  }

  /** For any logged activities, the head of the sorted tally is a logged name that
      occurs at least as often as every other name, and it is the answer unless it is
      the empty name. */
  lemma MostFrequentIsMaximal(acts: seq<Activity>)
    requires acts != []
    ensures TopName(acts) in Names(acts)
    ensures MostFrequentActivity(acts) == if TopName(acts) == "" then NoActivities else TopName(acts)
    ensures Occurrences(acts, TopName(acts)) >= 1
    ensures forall a :: a in acts ==> Occurrences(acts, a.name) <= Occurrences(acts, TopName(acts))
  {
    var keys := Keys(acts);
    var top := TopName(acts);
    KeysAreNames(acts);
    forall a | a in acts ensures Occurrences(acts, a.name) <= Occurrences(acts, top) {
      var j :| 0 <= j < |keys| && keys[j] == a.name;
    }
  }

  /** Ties go to the name seen first: every name first seen before the head of the
      sorted tally occurs strictly less often. */
  lemma MostFrequentBreaksTiesByFirstSeen(acts: seq<Activity>)
    requires acts != []
    ensures TopName(acts) in Names(acts)
    ensures forall a :: a in acts && FirstIndex(Names(acts), a.name) < FirstIndex(Names(acts), TopName(acts)) ==>
              Occurrences(acts, a.name) < Occurrences(acts, TopName(acts))
  {
    KeysAreNames(acts);
    forall a | a in acts && FirstIndex(Names(acts), a.name) < FirstIndex(Names(acts), TopName(acts))
      ensures Occurrences(acts, a.name) < Occurrences(acts, TopName(acts))
    {
      SeenEarlierCountsLess(acts, a.name);
    }
  }

  lemma SeenEarlierCountsLess(acts: seq<Activity>, name: string)
    requires acts != [] && name in Names(acts) && TopName(acts) in Names(acts)
    requires FirstIndex(Names(acts), name) < FirstIndex(Names(acts), TopName(acts))
    ensures Occurrences(acts, name) < Occurrences(acts, TopName(acts))
  {
    var keys := Keys(acts);
    KeysAreNames(acts);
    DedupCorrect(Names(acts));
    var m := FirstMaxIndex(keys, CountMap(acts));
    assert keys[m] == TopName(acts);
    var j :| 0 <= j < |keys| && keys[j] == name;
    assert j < m;
  }

  /** Two walks and two meals, the walk logged first. */
  const WalksAndMeals: seq<Activity> :=
    [Activity(1, "Walk", 4), Activity(2, "Meal", 3), Activity(3, "Meal", 5), Activity(4, "Walk", 2)]

  lemma WalksAndMealsKeys()
    ensures Keys(WalksAndMeals) == ["Walk", "Meal"]
  {
    var names := Names(WalksAndMeals);
    assert names == ["Walk", "Meal", "Meal", "Walk"];
    assert names[..1] == ["Walk"] && names[..2] == ["Walk", "Meal"] && names[..3] == ["Walk", "Meal", "Meal"];
    assert Dedup(names[..1]) == ["Walk"] by { assert names[..1][..0] == []; }
    assert Dedup(names[..2]) == ["Walk", "Meal"] by { assert names[..2][..1] == names[..1]; }
    assert Dedup(names[..3]) == ["Walk", "Meal"] by { assert names[..3][..2] == names[..2]; }
    assert names[..3] == names[..|names| - 1];
  }

  lemma WalksAndMealsCounts()
    ensures Occurrences(WalksAndMeals, "Walk") == 2 && Occurrences(WalksAndMeals, "Meal") == 2
  {
    var acts := WalksAndMeals;
    assert acts[..3][..2] == acts[..2] && acts[..2][..1] == acts[..1] && acts[..1][..0] == [];
    assert acts[..|acts| - 1] == acts[..3];
    assert Occurrences(acts[..1], "Walk") == 1 && Occurrences(acts[..1], "Meal") == 0;
    assert Occurrences(acts[..2], "Walk") == 1 && Occurrences(acts[..2], "Meal") == 1;
    assert Occurrences(acts[..3], "Walk") == 1 && Occurrences(acts[..3], "Meal") == 2;
  }

  /** A tie goes to the name seen first: with two walks and two meals, "Walk" wins when
      it is logged first. */
  lemma TieGoesToFirstSeen()
    ensures MostFrequentActivity([Activity(1, "Walk", 4), Activity(2, "Meal", 3),
                                  Activity(3, "Meal", 5), Activity(4, "Walk", 2)]) == "Walk"
  {
    WalksAndMealsKeys();
    WalksAndMealsCounts();
    var keys := Keys(WalksAndMeals);
    var counts := CountMap(WalksAndMeals);
    assert counts[keys[0]] == counts[keys[1]];
  }

  /** The "Active Challenges" card: the challenges whose `completed` flag is not set. */
  function ActiveCount(cs: seq<ChallengeItem>): (n: nat)
    ensures n <= |cs|
    ensures n == |cs| <==> forall c :: c in cs ==> !c.completed
    ensures n == 0 <==> forall c :: c in cs ==> c.completed
  {
    if cs == [] then 0
    else ActiveCount(cs[..|cs| - 1]) + (if cs[|cs| - 1].completed then 0 else 1)
  }
}
