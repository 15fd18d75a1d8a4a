/** The `EnhancedJournal` component: a list of journal entries with a mood
    from the six-point scale and a set of tags, the entry form, tag toggling
    and the statistics shown above the list. */
module EnhancedJournal {
  import opened Wrappers
  import opened Seqs
  import opened MoodScale

  datatype Entry = Entry(id: int, title: string, content: string, mood: int, tags: seq<string>,
                         date: string, moodEmoji: Option<string>, moodLabel: Option<string>)

  datatype EntryForm = EntryForm(title: string, content: string, mood: int, tags: seq<string>)

  const BlankForm := EntryForm("", "", 5, [])

  /** The entry `addEntry` builds: the form's fields, the clock's id and date,
      and the emoji and label read at index `mood - 1` without clamping. */
  function NewEntry(form: EntryForm, id: int, date: string): Entry
  {
    Entry(id, form.title, form.content, form.mood, form.tags, date,
          At(MoodEmojis, form.mood - 1), At(MoodLabels, form.mood - 1))
  }

  /** A mood the slider can produce (1 to 6) finds its emoji and its label. */
  lemma SliderMoodsFindTheirLabels(form: EntryForm, id: int, date: string)
    requires 1 <= form.mood <= 6
    ensures NewEntry(form, id, date).moodEmoji == Some(MoodEmojis[form.mood - 1])
    ensures NewEntry(form, id, date).moodLabel == Some(MoodLabels[form.mood - 1])
  {
  }

  function OtherThan(tag: string): string -> bool
  {
    (t: string) => t != tag
  }

  /** `toggleTag`: a tag already chosen is removed, every copy of it; any
      other tag is added at the end. */
  function ToggleTag(tags: seq<string>, tag: string): (r: seq<string>)
    ensures tag in r <==> tag !in tags
    ensures forall i :: 0 <= i < |r| && r[i] != tag ==> r[i] in tags
    ensures forall i :: 0 <= i < |tags| && tags[i] != tag ==> tags[i] in r
    ensures tag !in tags ==> r == tags + [tag]
  {
    if tag in tags then Filter(tags, OtherThan(tag)) else tags + [tag]
  }

  /** Choosing a new tag and then clicking it again gives the original list back. */
  lemma ToggleTwiceRestores(tags: seq<string>, tag: string)
    requires tag !in tags
    ensures ToggleTag(ToggleTag(tags, tag), tag) == tags
  {
    FilterConcat(tags, [tag], OtherThan(tag));
    FilterKeepsAll(tags, OtherThan(tag));
    assert Filter([tag], OtherThan(tag)) == [];
  }

  /** `entries.flatMap(entry => entry.tags)`. */
  function AllTags(entries: seq<Entry>): (all: seq<string>)
    ensures forall i, j :: 0 <= i < |entries| && 0 <= j < |entries[i].tags| ==> entries[i].tags[j] in all
    ensures forall k :: 0 <= k < |all| ==> exists i :: 0 <= i < |entries| && all[k] in entries[i].tags
  {
    if entries == [] then []
    else
      var rest := AllTags(entries[1..]);
      assert forall i :: 1 <= i < |entries| ==> entries[i] == entries[1..][i - 1];
      entries[0].tags + rest
  }

  /** The index of the first occurrence of `x`. */
  function FirstIndex(xs: seq<string>, x: string): (i: nat)
    requires x in xs
    ensures i < |xs| && xs[i] == x && x !in xs[..i]
  {
    if xs[0] == x then 0
    else
      var i := 1 + FirstIndex(xs[1..], x);
      assert xs[..i] == [xs[0]] + xs[1..][..i - 1];
      i
  }

  /** The first occurrence of a value seen in a prefix lies in that prefix. */
  lemma FirstIndexInPrefix(xs: seq<string>, m: nat, x: string)
    requires m <= |xs| && x in xs[..m]
    ensures FirstIndex(xs, x) == FirstIndex(xs[..m], x)
  {
    var i, j := FirstIndex(xs, x), FirstIndex(xs[..m], x);
    forall p | 0 <= p < i ensures xs[p] != x {
      assert xs[..i][p] == xs[p];
    }
    forall p | 0 <= p < j ensures xs[p] != x {
      assert xs[..m][..j][p] == xs[p];
    }
  }

  /** `[...new Set(xs)]`: each value once, in the order of its first occurrence. */
  function Dedup(xs: seq<string>): (d: seq<string>)
    ensures forall x :: x in d <==> x in xs
    ensures forall i, j :: 0 <= i < j < |d| ==> d[i] != d[j]
    ensures forall i, j :: 0 <= i < j < |d| ==> FirstIndex(xs, d[i]) < FirstIndex(xs, d[j])
  {
    if xs == [] then []
    else
      var init := xs[..|xs| - 1];
      var d := Dedup(init);
      assert xs == init + [xs[|xs| - 1]];
      forall y | y in d
        ensures FirstIndex(xs, y) == FirstIndex(init, y)
      {
        FirstIndexInPrefix(xs, |xs| - 1, y);
      }
      if xs[|xs| - 1] in d then d
      else d + [xs[|xs| - 1]]
  }

  function HasTag(tag: string): Entry -> bool
  {
    (e: Entry) => tag in e.tags
  }

  /** `entries.filter(entry => entry.tags.includes(tag)).length`. */
  function Count(entries: seq<Entry>, tag: string): nat
  {
    |Filter(entries, HasTag(tag))|
  }

  /** The first tag of `tags` with the highest count: what a stable sort by
      descending count puts first. */
  function Leader(entries: seq<Entry>, tags: seq<string>): (k: nat)
    requires tags != []
    ensures k < |tags|
    ensures forall i :: 0 <= i < |tags| ==> Count(entries, tags[i]) <= Count(entries, tags[k])
    ensures forall i :: 0 <= i < k ==> Count(entries, tags[i]) < Count(entries, tags[k])
  {
    if |tags| == 1 then 0
    else
      var k := Leader(entries, tags[..|tags| - 1]);
      if Count(entries, tags[|tags| - 1]) > Count(entries, tags[k]) then |tags| - 1 else k
  }

  datatype MostUsed = NoTagsYet | NoTag | Top(tag: string)

  /** No tag of any entry is used by more entries than `tag`. */
  predicate IsMostUsed(entries: seq<Entry>, tag: string)
  {
    forall i, j :: 0 <= i < |entries| && 0 <= j < |entries[i].tags| ==>
      Count(entries, entries[i].tags[j]) <= Count(entries, tag)
  }

  /** `tag` appears no later than any tag used by as many entries. */
  predicate WinsTies(entries: seq<Entry>, tag: string)
    requires tag in AllTags(entries)
  {
    var all := AllTags(entries);
    forall k :: 0 <= k < |all| && Count(entries, all[k]) == Count(entries, tag) ==>
      FirstIndex(all, tag) <= FirstIndex(all, all[k])
  }

  /** `mostUsedTag`: 'No tags yet' without entries, undefined when no entry
      has a tag, otherwise a most frequent tag, ties going to the one that
      appears first. */
  function MostUsedTag(entries: seq<Entry>): (r: MostUsed)
    ensures r == NoTagsYet <==> entries == []
    ensures r == NoTag <==> entries != [] && forall i :: 0 <= i < |entries| ==> entries[i].tags == []
    ensures r.Top? ==> r.tag in AllTags(entries) && IsMostUsed(entries, r.tag) && WinsTies(entries, r.tag)
  {
    if entries == [] then NoTagsYet
    else
      var tags := Dedup(AllTags(entries));
      TagsOfEntries(entries);
      if tags == [] then NoTag
      else
        var k := Leader(entries, tags);
        LeaderWins(entries, k);
        Top(tags[k])
  }

  /** Some entry has a tag exactly when the list of distinct tags is non-empty. */
  lemma TagsOfEntries(entries: seq<Entry>)
    ensures Dedup(AllTags(entries)) == [] <==> forall i :: 0 <= i < |entries| ==> entries[i].tags == []
  {
    AllTagsEmpty(entries);
    var all := AllTags(entries);
    if all != [] {
      assert all[0] in Dedup(all);
    }
  }

  lemma {:induction false} AllTagsEmpty(entries: seq<Entry>)
    ensures AllTags(entries) == [] <==> forall i :: 0 <= i < |entries| ==> entries[i].tags == []
  {
    if entries != [] {
      AllTagsEmpty(entries[1..]);
      assert forall i :: 1 <= i < |entries| ==> entries[i] == entries[1..][i - 1];
    }
  }

  lemma LeaderWins(entries: seq<Entry>, k: nat)
    requires Dedup(AllTags(entries)) != [] && k == Leader(entries, Dedup(AllTags(entries)))
    ensures Dedup(AllTags(entries))[k] in AllTags(entries)
    ensures IsMostUsed(entries, Dedup(AllTags(entries))[k])
    ensures WinsTies(entries, Dedup(AllTags(entries))[k])
  {
    LeaderIsMostUsed(entries, AllTags(entries), Dedup(AllTags(entries)), k);
    LeaderWinsTies(entries, AllTags(entries), Dedup(AllTags(entries)), k);
  }

  lemma LeaderIsMostUsed(entries: seq<Entry>, all: seq<string>, tags: seq<string>, k: nat)
    requires all == AllTags(entries) && tags == Dedup(all) && tags != [] && k == Leader(entries, tags)
    ensures IsMostUsed(entries, tags[k])
  {
    forall i, j | 0 <= i < |entries| && 0 <= j < |entries[i].tags|
      ensures Count(entries, entries[i].tags[j]) <= Count(entries, tags[k])
    {
      var t := entries[i].tags[j];
      assert t in all;
      var p :| 0 <= p < |tags| && tags[p] == t;
    }
  }

  lemma LeaderWinsTies(entries: seq<Entry>, all: seq<string>, tags: seq<string>, k: nat)
    requires all == AllTags(entries) && tags == Dedup(all) && tags != [] && k == Leader(entries, tags)
    ensures tags[k] in all && WinsTies(entries, tags[k])
  {
    forall q | 0 <= q < |all| && Count(entries, all[q]) == Count(entries, tags[k])
      ensures FirstIndex(all, tags[k]) <= FirstIndex(all, all[q])
    {
      TieAt(entries, all, tags, k, q);
    }
  }

  lemma TieAt(entries: seq<Entry>, all: seq<string>, tags: seq<string>, k: nat, q: nat)
    requires tags == Dedup(all) && tags != [] && k == Leader(entries, tags)
    requires q < |all| && Count(entries, all[q]) == Count(entries, tags[k])
    ensures FirstIndex(all, tags[k]) <= FirstIndex(all, all[q])
  {
    assert all[q] in tags;
    var p :| 0 <= p < |tags| && tags[p] == all[q];
    TieGoesToEarlier(entries, all, tags, k, p);
  }

  /** A distinct tag as frequent as the leader comes no earlier than it. */
  lemma TieGoesToEarlier(entries: seq<Entry>, all: seq<string>, tags: seq<string>, k: nat, p: nat)
    requires tags == Dedup(all) && tags != [] && k == Leader(entries, tags)
    requires p < |tags| && Count(entries, tags[p]) == Count(entries, tags[k])
    ensures FirstIndex(all, tags[k]) <= FirstIndex(all, tags[p])
  {
    if p != k {
      assert k < p;
    }
  }

  /** The moods of the entries, in order. */
  function Moods(entries: seq<Entry>): (ms: seq<int>)
    ensures |ms| == |entries| && forall i :: 0 <= i < |entries| ==> ms[i] == entries[i].mood
  {
    seq(|entries|, i requires 0 <= i < |entries| => entries[i].mood)
  }

  /** `averageMood` before rounding: 0 without entries, otherwise the mean of
      the moods, so it lies on the scale whenever every mood does. */
  function AverageMood(entries: seq<Entry>): (r: real)
    ensures entries == [] ==> r == 0.0
    ensures entries != [] && (forall i :: 0 <= i < |entries| ==> 1 <= entries[i].mood <= 6) ==> 1.0 <= r <= 6.0
  {
    if entries == [] then 0.0
    else
      MeanWithin(Moods(entries), 1, 6);
      Mean(Moods(entries))
  }

  /** The state of the `EnhancedJournal` component; the entry being viewed
      in the modal is left out. */
  class EnhancedJournal {
    var entries: seq<Entry>
    var newEntry: EntryForm
    var showModal: bool

    /** The form's mood comes from the slider, which runs from 1 to 6. */
    predicate Valid()
      reads this
    {
      1 <= newEntry.mood <= 6
    }

    constructor ()
      ensures Valid()
      ensures entries == [] && newEntry == BlankForm && !showModal
    {
      entries := [];
      newEntry := BlankForm;
      showModal := false;
    }

    /** `addEntry`: without a title or without content (untrimmed) nothing
        happens; otherwise the entry goes first, the form is reset and the
        modal closes. */
    method AddEntry(id: int, date: string)
      requires Valid()
      modifies this
      ensures Valid()
      ensures old(newEntry.title) == "" || old(newEntry.content) == "" ==>
                entries == old(entries) && newEntry == old(newEntry) && showModal == old(showModal)
      ensures old(newEntry.title) != "" && old(newEntry.content) != "" ==>
                entries == [NewEntry(old(newEntry), id, date)] + old(entries) &&
                entries[0].moodEmoji == Some(MoodEmojis[old(newEntry.mood) - 1]) &&
                entries[0].moodLabel == Some(MoodLabels[old(newEntry.mood) - 1]) &&
                newEntry == BlankForm && !showModal
    {
      if newEntry.title == "" || newEntry.content == "" {
        return;
      }
      SliderMoodsFindTheirLabels(newEntry, id, date);
      entries := [NewEntry(newEntry, id, date)] + entries;
      newEntry := BlankForm;
      showModal := false;
    }

    /** `toggleTag` on the form's tags. */
    method ToggleFormTag(tag: string)
      modifies this
      ensures newEntry == old(newEntry).(tags := ToggleTag(old(newEntry.tags), tag))
      ensures entries == old(entries) && showModal == old(showModal)
    {
      newEntry := newEntry.(tags := ToggleTag(newEntry.tags, tag));
    }

    /** The mood slider, bounded to 1..6. */
    method SetMood(mood: int)
      requires 1 <= mood <= 6
      modifies this
      ensures Valid()
      ensures newEntry == old(newEntry).(mood := mood)
      ensures entries == old(entries) && showModal == old(showModal)
    {
      newEntry := newEntry.(mood := mood);
    }

    /** `totalEntries`. */
    function TotalEntries(): (n: nat)
      reads this
      ensures n == |entries| && (n == 0 <==> MostUsedTag(entries) == NoTagsYet)
    {
      |entries|
    }
  }
}
