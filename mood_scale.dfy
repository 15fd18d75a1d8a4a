/** The six-point mood scale of the journal screens: an emoji, a Bootstrap
    colour and a label per point, read at index `mood - 1`. */
module MoodScale {
  import opened Wrappers

  const MoodEmojis: seq<string> := ["😢", "😞", "😐", "😊", "😁", "🤩"]
  const MoodColors: seq<string> := ["danger", "warning", "secondary", "info", "primary", "success"]
  const MoodLabels: seq<string> := ["Very Low", "Low", "Neutral", "Good", "Great", "Excellent"]

  /** `table[i]` in JavaScript: the element, or undefined outside the array. */
  function At(table: seq<string>, i: int): (r: Option<string>)
    ensures r.Some? <==> 0 <= i < |table|
    ensures r.Some? ==> r.value == table[i]
  {
    if 0 <= i < |table| then Some(table[i]) else None
  }

  /** `Math.min(mood - 1, 5)`: moods above 6 share the last entry. */
  function ClampedIndex(mood: int): (i: int)
    ensures i <= 5
    ensures mood <= 6 ==> i == mood - 1
    ensures mood >= 6 ==> i == 5
  {
    if mood - 1 < 5 then mood - 1 else 5
  }

  /** A lookup at the clamped index finds an entry for every mood from 1 up,
      and a slider mood in 1..6 finds the entry of that very point. */
  lemma ClampedLookup(table: seq<string>, mood: int)
    requires |table| == 6
    ensures At(table, ClampedIndex(mood)).Some? <==> mood >= 1
    ensures 1 <= mood <= 6 ==> At(table, ClampedIndex(mood)) == At(table, mood - 1) == Some(table[mood - 1])
    ensures mood > 6 ==> At(table, ClampedIndex(mood)) == Some(table[5])
  {
  }

  /** `getMoodColor` of both journals: the colour at index `min(mood - 1, 5)`. */
  function MoodColor(mood: int): (r: Option<string>)
    ensures r.Some? <==> mood >= 1
    ensures 1 <= mood <= 6 ==> r == Some(MoodColors[mood - 1])
    ensures mood > 6 ==> r == Some("success")
  {
    ClampedLookup(MoodColors, mood);
    At(MoodColors, ClampedIndex(mood))
  }
}
