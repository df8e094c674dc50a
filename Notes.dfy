/**
 * The Notes page: a list of notes with pinning, deletion, creation and editing,
 * tag parsing, and the per-user search listing split into pinned and other notes.
 * The creation date and the current user's id are passed in by the caller.
 */
module Notes {
  import opened Wrappers
  import opened Text
  import opened Seqs

  datatype Note = Note(
    id: int,
    title: string,
    content: string,
    tags: seq<string>,
    emoji: string,
    isPinned: bool,
    date: string,
    userId: string)

  /** What the editor fields hold when Save is pressed; the tags as typed, comma-separated. */
  datatype Editor = Editor(title: string, content: string, tags: string, emoji: string)

  /** `togglePin`: the pin of every note with that id flips. */
  function TogglePinned(notes: seq<Note>, id: int): seq<Note> {
    seq(|notes|, k requires 0 <= k < |notes| =>
      if notes[k].id == id then notes[k].(isPinned := !notes[k].isPinned) else notes[k])
  }

  /** `deleteNote`: the notes with another id, in their order. */
  function WithoutNote(notes: seq<Note>, id: int): seq<Note> {
    Filter(notes, (n: Note) => n.id != id)
  }

  /** `Math.max(...notes.map(n => n.id))`. */
  function MaxId(notes: seq<Note>): (m: int)
    requires notes != []
    ensures forall k :: 0 <= k < |notes| ==> notes[k].id <= m
    ensures exists k :: 0 <= k < |notes| && notes[k].id == m
  {
    if |notes| == 1 then notes[0].id
    else
      var rest := MaxId(notes[1..]);
      assert forall k :: 1 <= k < |notes| ==> notes[k] == notes[1..][k - 1];
      if notes[0].id >= rest then notes[0].id else rest
  }

  /** The id a new note gets: one more than the largest id, or 1 for an empty list. */
  function NextId(notes: seq<Note>): (id: int)
    ensures forall k :: 0 <= k < |notes| ==> notes[k].id < id
    ensures notes == [] ==> id == 1
  {
    if |notes| > 0 then MaxId(notes) + 1 else 1
  }

  function TrimAll(pieces: seq<string>): (r: seq<string>)
    ensures |r| == |pieces|
    ensures forall k :: 0 <= k < |r| ==> r[k] == Trim(pieces[k])
  {
    seq(|pieces|, k requires 0 <= k < |pieces| => Trim(pieces[k]))
  }

  /** `tags.split(',').map(t => t.trim()).filter(t => t.length > 0)`. */
  function ParseTags(s: string): seq<string> {
    Filter(TrimAll(Split(s, ',')), (t: string) => |t| > 0)
  }

  /** No parsed tag is empty, contains a comma, or starts or ends with white space. */
  lemma ParsedTagsClean(s: string)
    ensures forall k :: 0 <= k < |ParseTags(s)| ==>
      ParseTags(s)[k] != "" && ',' !in ParseTags(s)[k] && NoOuterSpace(ParseTags(s)[k])
  {
    var pieces := Split(s, ',');
    var trimmed := TrimAll(pieces);
    forall k | 0 <= k < |ParseTags(s)|
      ensures ParseTags(s)[k] != "" && ',' !in ParseTags(s)[k] && NoOuterSpace(ParseTags(s)[k])
    {
      var t := ParseTags(s)[k];
      assert t in trimmed;
      var j :| 0 <= j < |trimmed| && trimmed[j] == t;
      if ',' in t {
        TrimKeepsChars(pieces[j], ',');
      }
    }
  }

  /** Each tag typed between commas, trimmed, is kept unless it is blank. */
  lemma ParsedTagsComplete(s: string, k: int)
    requires 0 <= k < |Split(s, ',')| && Trim(Split(s, ',')[k]) != ""
    ensures Trim(Split(s, ',')[k]) in ParseTags(s)
  {
    assert TrimAll(Split(s, ','))[k] == Trim(Split(s, ',')[k]);
  }

  /** The note Save creates. */
  function CreatedNote(notes: seq<Note>, ed: Editor, today: string, userId: string): Note {
    Note(NextId(notes), ed.title, ed.content, ParseTags(ed.tags), ed.emoji, false, today, userId)
  }

  /** Save on an existing note: only title, content, tags and emoji of the notes with that id change. */
  function UpdatedNotes(notes: seq<Note>, id: int, ed: Editor): seq<Note> {
    seq(|notes|, k requires 0 <= k < |notes| =>
      if notes[k].id == id
      then notes[k].(title := ed.title, content := ed.content, tags := ParseTags(ed.tags), emoji := ed.emoji)
      else notes[k])
  }

  /** The search predicate: the lower-cased term occurs in the lower-cased title, content or some tag. */
  predicate Matches(n: Note, term: string) {
    var t := ToLower(term);
    || Contains(ToLower(n.title), t)
    || Contains(ToLower(n.content), t)
    || exists k :: 0 <= k < |n.tags| && Contains(ToLower(n.tags[k]), t)
  }

  /** The current user's notes. */
  function UserNotes(notes: seq<Note>, userId: string): seq<Note> {
    Filter(notes, (n: Note) => n.userId == userId)
  }

  /** The current user's notes that match the search term. */
  function FilteredNotes(notes: seq<Note>, userId: string, term: string): seq<Note> {
    Filter(UserNotes(notes, userId), (n: Note) => Matches(n, term))
  }

  function PinnedNotes(filtered: seq<Note>): seq<Note> {
    Filter(filtered, (n: Note) => n.isPinned)
  }

  function RegularNotes(filtered: seq<Note>): seq<Note> {
    Filter(filtered, (n: Note) => !n.isPinned)
  }

  // ---- Properties ----

  /** Toggling flips the pin of the notes with that id and changes nothing else. */
  lemma TogglePinEffect(notes: seq<Note>, id: int)
    ensures |TogglePinned(notes, id)| == |notes|
    ensures forall k :: 0 <= k < |notes| ==>
      && TogglePinned(notes, id)[k].isPinned == (if notes[k].id == id then !notes[k].isPinned else notes[k].isPinned)
      && TogglePinned(notes, id)[k].(isPinned := notes[k].isPinned) == notes[k]
  {
  }

  /** Toggling twice restores the list. */
  lemma TogglePinTwice(notes: seq<Note>, id: int)
    ensures TogglePinned(TogglePinned(notes, id), id) == notes
  {
  }

  /** Deleting keeps exactly the notes with another id. */
  lemma DeleteRemovesExactly(notes: seq<Note>, id: int, n: Note)
    ensures n in WithoutNote(notes, id) <==> n in notes && n.id != id
  {
    FilterMembership(notes, (m: Note) => m.id != id, n);
  }

  /** Deletion keeps the order of what remains: it acts on each part of a list separately. */
  lemma DeleteKeepsOrder(a: seq<Note>, b: seq<Note>, id: int)
    ensures WithoutNote(a + b, id) == WithoutNote(a, id) + WithoutNote(b, id)
  {
    FilterConcat(a, b, (n: Note) => n.id != id);
  }

  /** A created note's id is not taken, and the note starts unpinned. */
  lemma CreatedNoteFresh(notes: seq<Note>, ed: Editor, today: string, userId: string)
    ensures forall k :: 0 <= k < |notes| ==> notes[k].id != CreatedNote(notes, ed, today, userId).id
    ensures !CreatedNote(notes, ed, today, userId).isPinned
  {
  }

  /** Saving an edit changes only the edited note's title, content, tags and emoji. */
  lemma UpdateKeepsOtherFields(notes: seq<Note>, id: int, ed: Editor)
    ensures |UpdatedNotes(notes, id, ed)| == |notes|
    ensures forall k :: 0 <= k < |notes| ==>
      var r := UpdatedNotes(notes, id, ed)[k];
      && r.id == notes[k].id && r.isPinned == notes[k].isPinned
      && r.date == notes[k].date && r.userId == notes[k].userId
      && (notes[k].id != id ==> r == notes[k])
      && (notes[k].id == id ==>
            r.title == ed.title && r.content == ed.content && r.tags == ParseTags(ed.tags) && r.emoji == ed.emoji)
  {
  }

  /** The listing holds exactly the current user's notes that match the term. */
  lemma ListingExact(notes: seq<Note>, userId: string, term: string, n: Note)
    ensures n in FilteredNotes(notes, userId, term) <==> n in notes && n.userId == userId && Matches(n, term)
  {
    FilterMembership(notes, (m: Note) => m.userId == userId, n);
    FilterMembership(UserNotes(notes, userId), (m: Note) => Matches(m, term), n);
  }

  /** An empty search term lists every note of the user. */
  lemma EmptySearchKeepsAll(notes: seq<Note>, userId: string)
    ensures FilteredNotes(notes, userId, "") == UserNotes(notes, userId)
  {
    var user := UserNotes(notes, userId);
    forall k | 0 <= k < |user| ensures Matches(user[k], "") {
      ContainsEmpty(ToLower(user[k].title));
    }
    FilterKeepsAll(user, (m: Note) => Matches(m, ""));
  }

  /** Pinned and other notes split the listing: together they hold each listed note exactly once. */
  lemma PinnedRegularPartition(filtered: seq<Note>)
    ensures multiset(PinnedNotes(filtered)) + multiset(RegularNotes(filtered)) == multiset(filtered)
    ensures forall k :: 0 <= k < |PinnedNotes(filtered)| ==> PinnedNotes(filtered)[k].isPinned
    ensures forall k :: 0 <= k < |RegularNotes(filtered)| ==> !RegularNotes(filtered)[k].isPinned
  {
    FilterPartition(filtered, (n: Note) => n.isPinned, (n: Note) => !n.isPinned);
  }

  /** The page state `handleSave` acts on. */
  datatype PageState = PageState(notes: seq<Note>, selectedNote: Option<int>, isCreating: bool)

  /**
   * `handleSave`: while creating, the new note goes first and becomes the
   * selection; otherwise the selected note is updated in place.
   */
  function Saved(st: PageState, ed: Editor, today: string, userId: string): PageState {
    if st.isCreating then PageState([CreatedNote(st.notes, ed, today, userId)] + st.notes, Some(NextId(st.notes)), false)
    else if st.selectedNote.Some? then st.(notes := UpdatedNotes(st.notes, st.selectedNote.value, ed))
    else st
  }

  /** What Save does in each mode: create and select, update the selected note, or nothing. */
  lemma SaveEffect(st: PageState, ed: Editor, today: string, userId: string)
    ensures var r := Saved(st, ed, today, userId);
      && (st.isCreating ==>
            && |r.notes| == |st.notes| + 1 && r.notes[1..] == st.notes
            && r.notes[0].id == NextId(st.notes) && !r.notes[0].isPinned
            && r.notes[0].userId == userId && r.notes[0].date == today
            && r.notes[0].tags == ParseTags(ed.tags)
            && (forall k :: 0 <= k < |st.notes| ==> st.notes[k].id != r.notes[0].id)
            && r.selectedNote == Some(r.notes[0].id) && !r.isCreating)
      && (!st.isCreating && st.selectedNote.Some? ==>
            r.notes == UpdatedNotes(st.notes, st.selectedNote.value, ed)
            && r.selectedNote == st.selectedNote && !r.isCreating)
      && (!st.isCreating && st.selectedNote.None? ==> r == st)
  {
    var r := Saved(st, ed, today, userId);
    if st.isCreating {
      assert r.notes[1..] == st.notes;
    }
  }

  /** The state of the Notes page: the list, the selected note's id and whether a new note is being written. */
  class NotesPage {
    var notes: seq<Note>
    var selectedNote: Option<int>
    var isCreating: bool

    /** The page opens on the list loaded from storage, or on the seeded notes. */
    constructor (initial: seq<Note>)
      ensures notes == initial && selectedNote == None && !isCreating
    {
      notes := initial;
      selectedNote := None;
      isCreating := false;
    }

    method TogglePin(id: int)
      modifies this
      ensures notes == TogglePinned(old(notes), id)
      ensures selectedNote == old(selectedNote) && isCreating == old(isCreating)
    {
      notes := TogglePinned(notes, id);
    }

    /** `deleteNote`: deleting the selected note also closes the editor. */
    method DeleteNote(id: int)
      modifies this
      ensures notes == WithoutNote(old(notes), id)
      ensures old(selectedNote) == Some(id) ==> selectedNote == None && !isCreating
      ensures old(selectedNote) != Some(id) ==> selectedNote == old(selectedNote) && isCreating == old(isCreating)
    {
      notes := WithoutNote(notes, id);
      if selectedNote == Some(id) {
        selectedNote := None;
        isCreating := false;
      }
    }

    /** The "New Note" button. */
    method StartCreating()
      modifies this
      ensures isCreating && selectedNote == None && notes == old(notes)
    {
      isCreating := true;
      selectedNote := None;
    }

    /** Clicking a note in the list. */
    method Select(id: int)
      modifies this
      ensures selectedNote == Some(id) && !isCreating && notes == old(notes)
    {
      selectedNote := Some(id);
      isCreating := false;
    }

    /** `handleCancel`. */
    method Cancel()
      modifies this
      ensures selectedNote == None && !isCreating && notes == old(notes)
    {
      selectedNote := None;
      isCreating := false;
    }

    /** `handleSave`: the three state setters it calls take effect together. */
    method HandleSave(ed: Editor, today: string, userId: string)
      modifies this
      ensures PageState(notes, selectedNote, isCreating)
           == Saved(PageState(old(notes), old(selectedNote), old(isCreating)), ed, today, userId)
    {
      var st := Saved(PageState(notes, selectedNote, isCreating), ed, today, userId);
      notes, selectedNote, isCreating := st.notes, st.selectedNote, st.isCreating;
    }
  }
}
