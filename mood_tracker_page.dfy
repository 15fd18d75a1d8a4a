/** The `MoodTracker` page: a mood slider from 1 to 10 and a list of notes. */
module MoodTrackerPage {

  datatype Entry = Entry(mood: int, note: string, createdAt: string)

  /** The state of the `MoodTracker` page. */
  class MoodTracker {
    var mood: int
    var note: string
    var entries: seq<Entry>

    /** The slider bounds the mood to 1..10. */
    predicate Valid()
      reads this
    {
      1 <= mood <= 10
    }

    constructor ()
      ensures Valid()
      ensures mood == 6 && note == "" && entries == []
    {
      mood := 6;
      note := "";
      entries := [];
    }

    /** The range input. */
    method SetMood(value: int)
      requires 1 <= value <= 10
      modifies this
      ensures Valid()
      ensures mood == value && note == old(note) && entries == old(entries)
    {
      mood := value;
    }

    /** `add`: an empty note (not trimmed) raises an alert and changes
        nothing; otherwise the entry goes first, the note is cleared and the
        mood stays. */
    method Add(createdAt: string) returns (alerted: bool)
      requires Valid()
      modifies this
      ensures Valid()
      ensures alerted <==> old(note) == ""
      ensures alerted ==> note == old(note) && entries == old(entries)
      ensures !alerted ==> entries == [Entry(old(mood), old(note), createdAt)] + old(entries) && note == ""
      ensures !alerted ==> entries[1..] == old(entries) && entries[0].note != ""
      ensures mood == old(mood)
    {
      if note == "" {
        return true;
      }
      entries := [Entry(mood, note, createdAt)] + entries;
      note := "";
      return false;
    }
  }
}
