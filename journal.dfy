/** The `Journal` component: entries with a mood emoji chosen through the
    clamped lookup. */
module Journal {
  import opened Wrappers
  import opened MoodScale

  datatype Entry = Entry(id: int, title: string, content: string, mood: int, date: string,
                         moodEmoji: Option<string>)

  datatype EntryForm = EntryForm(title: string, content: string, mood: int)

  const BlankForm := EntryForm("", "", 5)

  /** `getMoodEmoji`: the emoji at index `min(mood - 1, 5)`; every mood
      above 6 gets the last one. */
  function MoodEmoji(mood: int): (r: Option<string>)
    ensures r.Some? <==> mood >= 1
    ensures 1 <= mood <= 6 ==> r == Some(MoodEmojis[mood - 1])
    ensures mood > 6 ==> r == Some("🤩")
  {
    ClampedLookup(MoodEmojis, mood);
    At(MoodEmojis, ClampedIndex(mood))
  }

  /** Emoji and colour always come from the same point of the scale. */
  lemma EmojiAndColorAgree(mood: int)
    requires mood >= 1
    ensures exists i :: 0 <= i < 6 && MoodEmoji(mood) == Some(MoodEmojis[i]) && MoodColor(mood) == Some(MoodColors[i])
  {
    var i := ClampedIndex(mood);
    assert MoodEmoji(mood) == Some(MoodEmojis[i]) && MoodColor(mood) == Some(MoodColors[i]);
  }

  function NewEntry(form: EntryForm, id: int, date: string): Entry
  {
    Entry(id, form.title, form.content, form.mood, date, MoodEmoji(form.mood))
  }

  /** The state of the `Journal` component. */
  class Journal {
    var entries: seq<Entry>
    var newEntry: EntryForm

    /** The form's mood comes from the slider, which runs from 1 to 6. */
    predicate Valid()
      reads this
    {
      1 <= newEntry.mood <= 6
    }

    constructor ()
      ensures Valid()
      ensures entries == [] && newEntry == BlankForm
    {
      entries := [];
      newEntry := BlankForm;
    }

    /** `addEntry`: title and content must both be non-empty (untrimmed);
        the entry goes first with the emoji of its mood and the form is reset. */
    method AddEntry(id: int, date: string)
      requires Valid()
      modifies this
      ensures Valid()
      ensures old(newEntry.title) == "" || old(newEntry.content) == "" ==>
                entries == old(entries) && newEntry == old(newEntry)
      ensures old(newEntry.title) != "" && old(newEntry.content) != "" ==>
                entries == [NewEntry(old(newEntry), id, date)] + old(entries) &&
                entries[0].moodEmoji == Some(MoodEmojis[old(newEntry.mood) - 1]) &&
                newEntry == BlankForm
    {
      if newEntry.title == "" || newEntry.content == "" {
        return;
      }
      entries := [NewEntry(newEntry, id, date)] + entries;
      newEntry := BlankForm;
    }

    /** The mood slider, bounded to 1..6. */
    method SetMood(mood: int)
      requires 1 <= mood <= 6
      modifies this
      ensures Valid()
      ensures newEntry == old(newEntry).(mood := mood) && entries == old(entries)
    {
      newEntry := newEntry.(mood := mood);
    }
  }
}
