/**
 * The note store: notes with their creation and edit times, the pin
 * toggle, and the pinned, search and tag selectors. Ids and the clock are
 * parameters.
 */
module Notes {
  import opened Wrappers
  import opened Seqs
  import opened Text
  import opened Types

  /** What `addNote` is given: a note without id and times. */
  datatype NoteDraft = NoteDraft(title: string, content: string, tags: seq<string>, isPinned: bool)

  /** A new note is created and last updated at the same instant. */
  function NewNote(draft: NoteDraft, id: string, now: int): (n: Note)
    ensures n.id == id && n.createdAt == now && n.updatedAt == now
    ensures n.title == draft.title && n.content == draft.content
    ensures n.tags == draft.tags && n.isPinned == draft.isPinned
  {
    Note(id, draft.title, draft.content, now, now, draft.tags, draft.isPinned)
  }

  /** `Partial<Note>` */
  datatype NoteUpdate = NoteUpdate(
    id: Option<string>,
    title: Option<string>,
    content: Option<string>,
    createdAt: Option<int>,
    updatedAt: Option<int>,
    tags: Option<seq<string>>,
    isPinned: Option<bool>)

  /** `{ ...note, ...updates, updatedAt: now }`: the edit time is `now` even when `updates` names another. */
  function MergeNote(n: Note, u: NoteUpdate, now: int): (r: Note)
    ensures r.updatedAt == now
    ensures r.id == if u.id.Some? then u.id.value else n.id
    ensures r.title == if u.title.Some? then u.title.value else n.title
    ensures r.content == if u.content.Some? then u.content.value else n.content
    ensures r.createdAt == if u.createdAt.Some? then u.createdAt.value else n.createdAt
    ensures r.tags == if u.tags.Some? then u.tags.value else n.tags
    ensures r.isPinned == if u.isPinned.Some? then u.isPinned.value else n.isPinned
  {
    Note(
      u.id.GetOr(n.id),
      u.title.GetOr(n.title),
      u.content.GetOr(n.content),
      u.createdAt.GetOr(n.createdAt),
      now,
      u.tags.GetOr(n.tags),
      u.isPinned.GetOr(n.isPinned))
  }

  const NoNoteUpdate := NoteUpdate(None, None, None, None, None, None, None)

  /** An empty update only refreshes the edit time; a repeated update at the same time changes nothing more. */
  lemma MergeNoteLaws(n: Note, u: NoteUpdate, now: int)
    ensures MergeNote(n, NoNoteUpdate, now) == n.(updatedAt := now)
    ensures MergeNote(MergeNote(n, u, now), u, now) == MergeNote(n, u, now)
  {
  }

  function TogglePinned(n: Note): (r: Note)
    ensures r.isPinned != n.isPinned
    ensures r.(isPinned := n.isPinned) == n
  {
    n.(isPinned := !n.isPinned)
  }

  /** Pinning twice restores the note. */
  lemma TogglePinnedTwice(n: Note)
    ensures TogglePinned(TogglePinned(n)) == n
  {
  }

  /** The note list after `togglePin(id)`: every note with this id has its pin flipped, the rest stay in place. */
  function TogglePinIn(notes: seq<Note>, id: string): (r: seq<Note>)
    ensures |r| == |notes|
    ensures forall i :: 0 <= i < |notes| ==>
      r[i] == if notes[i].id == id then TogglePinned(notes[i]) else notes[i]
  {
    MapWhere(notes, (n: Note) => n.id == id, TogglePinned)
  }

  /** Toggling the same id twice gives back the original list. */
  lemma TogglePinInTwice(notes: seq<Note>, id: string)
    ensures TogglePinIn(TogglePinIn(notes, id), id) == notes
  {
    var r := TogglePinIn(TogglePinIn(notes, id), id);
    forall i | 0 <= i < |notes|
      ensures r[i] == notes[i]
    {
      TogglePinnedTwice(notes[i]);
    }
  }

  /** The search test of `searchNotes` for an already lowercased query. */
  predicate Matches(n: Note, lowerQuery: string) {
    Contains(ToLower(n.title), lowerQuery)
    || Contains(ToLower(n.content), lowerQuery)
    || exists i :: 0 <= i < |n.tags| && Contains(ToLower(n.tags[i]), lowerQuery)
  }

  function Matcher(lowerQuery: string): Note -> bool {
    (n: Note) => Matches(n, lowerQuery)
  }

  class NoteStore {
    var notes: seq<Note>

    constructor()
      ensures notes == []
    {
      notes := [];
    }

    method AddNote(draft: NoteDraft, id: string, now: int)
      modifies this
      ensures notes == old(notes) + [NewNote(draft, id, now)]
    {
      notes := notes + [NewNote(draft, id, now)];
    }

    method UpdateNote(id: string, updates: NoteUpdate, now: int)
      modifies this
      ensures |notes| == |old(notes)|
      ensures forall i :: 0 <= i < |notes| ==>
        notes[i] == if old(notes)[i].id == id then MergeNote(old(notes)[i], updates, now) else old(notes)[i]
    {
      notes := MapWhere(notes, (n: Note) => n.id == id, (n: Note) => MergeNote(n, updates, now));
    }

    method DeleteNote(id: string)
      modifies this
      ensures forall n :: n in notes <==> n in old(notes) && n.id != id
      ensures forall n :: multiset(notes)[n] == if n.id != id then multiset(old(notes))[n] else 0
      ensures IsSubsequence(notes, old(notes))
    {
      FilterSpec(notes, (n: Note) => n.id != id);
      notes := Filter(notes, (n: Note) => n.id != id);
    }

    /** Flips the pin of every note with this id; `updatedAt` is left alone. */
    method TogglePin(id: string)
      modifies this
      ensures notes == TogglePinIn(old(notes), id)
    {
      notes := TogglePinIn(notes, id);
    }

    function GetPinnedNotes(): (r: seq<Note>)
      reads this
      ensures forall n :: n in r <==> n in notes && n.isPinned
      ensures forall n :: multiset(r)[n] == if n.isPinned then multiset(notes)[n] else 0
      ensures IsSubsequence(r, notes)
    {
      FilterSpec(notes, (n: Note) => n.isPinned);
      Filter(notes, (n: Note) => n.isPinned)
    }

    /** The notes whose title, content or one of whose tags contains the query, ignoring case. */
    function SearchNotes(query: string): (r: seq<Note>)
      reads this
      ensures forall n :: n in r <==> n in notes && Matches(n, ToLower(query))
      ensures forall n :: multiset(r)[n] == if Matches(n, ToLower(query)) then multiset(notes)[n] else 0
      ensures IsSubsequence(r, notes)
    {
      FilterSpec(notes, Matcher(ToLower(query)));
      Filter(notes, Matcher(ToLower(query)))
    }

    function GetNotesByTag(tag: string): (r: seq<Note>)
      reads this
      ensures forall n :: n in r <==> n in notes && tag in n.tags
      ensures forall n :: multiset(r)[n] == if tag in n.tags then multiset(notes)[n] else 0
      ensures IsSubsequence(r, notes)
    {
      FilterSpec(notes, (n: Note) => tag in n.tags);
      Filter(notes, (n: Note) => tag in n.tags)
    }
  }

  /** An empty query finds every note, in order. */
  lemma SearchEmptyFindsAll(store: NoteStore)
    ensures store.SearchNotes("") == store.notes
  {
    forall i | 0 <= i < |store.notes| ensures Matcher(ToLower(""))(store.notes[i]) {
      ContainsEmpty(ToLower(store.notes[i].title));
    }
    FilterAll(store.notes, Matcher(ToLower("")));
  }

  /** The query's case does not matter: searching for it and for its lowercase form give the same notes. */
  lemma SearchIgnoresCase(store: NoteStore, query: string)
    ensures store.SearchNotes(query) == store.SearchNotes(ToLower(query))
  {
    ToLowerIdempotent(query);
  }
}
