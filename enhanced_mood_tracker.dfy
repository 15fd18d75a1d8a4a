/** The `EnhancedMoodTracker` component: mood entries picked from six mood
    options, each with a trimmed note, the statistics cards and the split of
    the list into a recent panel and an all-entries panel. */
module EnhancedMoodTracker {
  import opened Wrappers
  import opened Text
  import opened Seqs
  import MoodScale

  datatype MoodOption = MoodOption(value: int, emoji: string, moodLabel: string, color: string)

  const MoodOptions: seq<MoodOption> := [
    MoodOption(1, "😢", "Very Low", "danger"),
    MoodOption(2, "😞", "Low", "warning"),
    MoodOption(3, "😐", "Neutral", "secondary"),
    MoodOption(4, "😊", "Good", "info"),
    MoodOption(5, "😁", "Great", "primary"),
    MoodOption(6, "🤩", "Excellent", "success")
  ]

  /** The options are the journal's six-point scale, point by point. */
  lemma OptionsFollowTheScale()
    ensures |MoodOptions| == 6
    ensures forall i :: 0 <= i < 6 ==>
              MoodOptions[i] == MoodOption(i + 1, MoodScale.MoodEmojis[i], MoodScale.MoodLabels[i], MoodScale.MoodColors[i])
  {
  }

  /** `options.find(m => m.value === value)`. */
  function Find(options: seq<MoodOption>, value: int): (r: Option<MoodOption>)
    ensures r.Some? <==> exists i :: 0 <= i < |options| && options[i].value == value
    ensures r.Some? ==> r.value in options && r.value.value == value
  {
    if options == [] then None
    else if options[0].value == value then Some(options[0])
    else
      var r := Find(options[1..], value);
      assert forall i :: 1 <= i < |options| ==> options[i] == options[1..][i - 1];
      r
  }

  /** Exactly the moods 1 to 6 have an option, and it is the one at `mood - 1`. */
  lemma OptionOfMood(mood: int)
    ensures Find(MoodOptions, mood).Some? <==> 1 <= mood <= 6
    ensures 1 <= mood <= 6 ==> Find(MoodOptions, mood) == Some(MoodOptions[mood - 1])
  {
    assert forall i :: 0 <= i < |MoodOptions| ==> MoodOptions[i].value == i + 1;
  }

  /** `selectedMood || mood`: a chosen mood wins unless it is missing (or 0). */
  function EffectiveMood(selectedMood: Option<int>, mood: int): (m: int)
    ensures selectedMood.Some? && selectedMood.value != 0 ==> m == selectedMood.value
    ensures selectedMood.None? || selectedMood.value == 0 ==> m == mood
  {
    if selectedMood.Some? && selectedMood.value != 0 then selectedMood.value else mood
  }

  datatype Entry = Entry(id: int, mood: int, note: string, date: string, moodData: Option<MoodOption>)

  function NewEntry(selectedMood: Option<int>, mood: int, note: string, id: int, date: string): Entry
  {
    var m := EffectiveMood(selectedMood, mood);
    Entry(id, m, Trim(note), date, Find(MoodOptions, m))
  }

  /** An entry made from a mood on the scale carries that mood's option and
      the trimmed note. */
  lemma NewEntryCarriesItsOption(selectedMood: Option<int>, mood: int, note: string, id: int, date: string)
    requires 1 <= mood <= 6 && (selectedMood.Some? ==> 1 <= selectedMood.value <= 6)
    ensures var e := NewEntry(selectedMood, mood, note, id, date);
            1 <= e.mood <= 6 && e.mood == EffectiveMood(selectedMood, mood) &&
            e.note == Trim(note) && e.moodData == Some(MoodOptions[e.mood - 1])
  {
    var m := EffectiveMood(selectedMood, mood);
    OptionOfMood(m);
    assert NewEntry(selectedMood, mood, note, id, date).moodData == Find(MoodOptions, m);
  }

  /** `entries.slice(0, 5)`: the recent panel. */
  function Recent(entries: seq<Entry>): seq<Entry>
  {
    if |entries| <= 5 then entries else entries[..5]
  }

  /** `entries.slice(5)`: the all-entries panel. */
  function Older(entries: seq<Entry>): seq<Entry>
  {
    if |entries| <= 5 then [] else entries[5..]
  }

  /** The two panels show every entry once and in order: at most five
      recent ones, and the rest only when there are more than five. */
  lemma PanelsSplitTheList(entries: seq<Entry>)
    ensures Recent(entries) + Older(entries) == entries
    ensures |Recent(entries)| == if |entries| < 5 then |entries| else 5
    ensures Older(entries) != [] <==> |entries| > 5
  {
  }

  datatype MoodStats = NoEntries | Summary(average: real, todayCount: nat, total: nat)

  function OnDay(isToday: string -> bool): Entry -> bool
  {
    (e: Entry) => isToday(e.date)
  }

  /** `getMoodStats`: average 0 without entries, otherwise the mean mood, the
      number of entries dated today and the number of entries. The average of
      the empty case is the value 0 and its trend 'neutral'. */
  function MoodStatsOf(entries: seq<Entry>, isToday: string -> bool): (r: MoodStats)
    ensures r.NoEntries? <==> entries == []
    ensures r.Summary? ==> r.total == |entries| && r.todayCount <= r.total
    ensures r.Summary? ==> r.todayCount == |Filter(entries, OnDay(isToday))|
    ensures r.Summary? && (forall i :: 0 <= i < |entries| ==> 1 <= entries[i].mood <= 6) ==> 1.0 <= r.average <= 6.0
  {
    if entries == [] then NoEntries
    else
      var moods := seq(|entries|, i requires 0 <= i < |entries| => entries[i].mood);
      MeanWithin(moods, 1, 6);
      Summary(Mean(moods), |Filter(entries, OnDay(isToday))|, |entries|)
  }

  /** The state of the `EnhancedMoodTracker` component. The slider mood is
      never changed by the component and stays at its initial 6. */
  class EnhancedMoodTracker {
    var mood: int
    var note: string
    var entries: seq<Entry>
    var selectedMood: Option<int>

    /** Moods come from the option buttons, so every mood in play is on the scale. */
    predicate Valid()
      reads this
    {
      1 <= mood <= 6 &&
      (selectedMood.Some? ==> 1 <= selectedMood.value <= 6) &&
      forall i :: 0 <= i < |entries| ==> 1 <= entries[i].mood <= 6
    }

    constructor ()
      ensures Valid()
      ensures mood == 6 && note == "" && entries == [] && selectedMood == None
    {
      mood := 6;
      note := "";
      entries := [];
      selectedMood := None;
    }

    /** An option button. */
    method SelectMood(value: int)
      requires 1 <= value <= 6
      requires Valid()
      modifies this
      ensures Valid()
      ensures selectedMood == Some(value)
      ensures mood == old(mood) && note == old(note) && entries == old(entries)
    {
      selectedMood := Some(value);
    }

    /** `addMoodEntry`: a blank note raises an alert and changes nothing;
        otherwise the entry goes first, with its mood's option and the note
        trimmed, and the note and the choice are cleared. */
    method AddMoodEntry(id: int, date: string) returns (alerted: bool)
      requires Valid()
      modifies this
      ensures Valid()
      ensures alerted <==> IsBlank(old(note))
      ensures alerted ==> note == old(note) && entries == old(entries) && selectedMood == old(selectedMood)
      ensures !alerted ==>
                entries == [NewEntry(old(selectedMood), old(mood), old(note), id, date)] + old(entries) &&
                note == "" && selectedMood == None
      ensures mood == old(mood)
    {
      if IsBlank(note) {
        return true;
      }
      var e := NewEntry(selectedMood, mood, note, id, date);
      entries := [e] + entries;
      note := "";
      selectedMood := None;
      return false;
    }

    /** The statistics cards. */
    function Stats(isToday: string -> bool): (r: MoodStats)
      requires Valid()
      reads this
      ensures r.NoEntries? <==> entries == []
      ensures r.Summary? ==> r.total == |entries| && 1.0 <= r.average <= 6.0
    {
      MoodStatsOf(entries, isToday)
    }
  }
}
