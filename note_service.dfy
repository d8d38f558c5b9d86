/**
 * The note store and its queries (app/services/note_service.py, with the note
 * record of app/models/note.py).
 *
 * The database table is a sequence of notes in insertion order; a query
 * returns the matching notes in that order.
 */
module NoteService {
  import opened Wrappers
  import opened Emotions
  import opened Calendar
  import Analysis

  type UserId = int

  /** A stored note: id, owner, text, creation time and its four emotion counts
      (the columns happy_count, calm_count, sad_count, upset_count). */
  datatype Note = Note(id: int, userId: UserId, text: string, createdAt: Micros, counts: Counts)

  /** Distinct notes have distinct ids (the primary key). */
  ghost predicate IdsUnique(notes: seq<Note>)
  {
    forall i, j :: 0 <= i < j < |notes| ==> notes[i].id != notes[j].id
  }

  // ---------------------------------------------------------------- queries

  /** `get_note_by_id`: the position of the first note with this id, if any. */
  function FindNote(notes: seq<Note>, noteId: int): (r: Option<nat>)
    ensures r.Some? ==> r.value < |notes| && notes[r.value].id == noteId
    ensures r.Some? ==> forall j :: 0 <= j < r.value ==> notes[j].id != noteId
    ensures r.None? <==> forall j :: 0 <= j < |notes| ==> notes[j].id != noteId
  {
    if notes == [] then None
    else if notes[0].id == noteId then Some(0)
    else match FindNote(notes[1..], noteId)
      case None => None
      case Some(k) => Some(k + 1)
  }

  /** `get_notes_by_user`: the notes owned by the user. */
  function NotesByUser(notes: seq<Note>, userId: UserId): (r: seq<Note>)
    ensures forall n :: n in r <==> n in notes && n.userId == userId
    ensures |r| <= |notes|
  {
    if notes == [] then []
    else
      var last := notes[|notes| - 1];
      assert notes == notes[..|notes| - 1] + [last];
      NotesByUser(notes[..|notes| - 1], userId) + (if last.userId == userId then [last] else [])
  }

  /** `count_notes_by_user`: the number of notes the user owns. */
  function CountNotesByUser(notes: seq<Note>, userId: UserId): (n: nat)
    ensures n == |NotesByUser(notes, userId)|
  {
    if notes == [] then 0
    else
      CountNotesByUser(notes[..|notes| - 1], userId) + (if notes[|notes| - 1].userId == userId then 1 else 0)
  }

  /** Whether a note passes the filters of `get_notes_by_user_and_date`: the owner
      matches, `created_at >= start` when a start is given, and `created_at <= end` when
      an end is given. */
  predicate MatchesUserAndDate(n: Note, userId: UserId, start: Option<Micros>, end: Option<Micros>)
  {
    && n.userId == userId
    && (start.Some? ==> start.value <= n.createdAt)
    && (end.Some? ==> n.createdAt <= end.value)
  }

  /** `get_notes_by_user_and_date`. */
  function NotesByUserAndDate(notes: seq<Note>, userId: UserId, start: Option<Micros>, end: Option<Micros>): (r: seq<Note>)
    ensures forall n :: n in r <==> n in notes && MatchesUserAndDate(n, userId, start, end)
    ensures |r| <= |notes|
  {
    if notes == [] then []
    else
      var last := notes[|notes| - 1];
      assert notes == notes[..|notes| - 1] + [last];
      NotesByUserAndDate(notes[..|notes| - 1], userId, start, end)
        + (if MatchesUserAndDate(last, userId, start, end) then [last] else [])
  }

  /** With neither bound given, the date query is the plain per-user query. */
  lemma {:induction false} UnboundedQueryIsNotesByUser(notes: seq<Note>, userId: UserId)
    ensures NotesByUserAndDate(notes, userId, None, None) == NotesByUser(notes, userId)
  {
    if notes != [] {
      UnboundedQueryIsNotesByUser(notes[..|notes| - 1], userId);
    }
  }

  /** Both bounds are inclusive: a note stamped exactly at the start or the end is returned. */
  lemma BoundsAreInclusive(notes: seq<Note>, n: Note, start: Micros, end: Micros)
    requires n in notes && (n.createdAt == start || n.createdAt == end) && start <= end
    ensures n in NotesByUserAndDate(notes, n.userId, Some(start), Some(end))
  {
  }

  /** The query keeps the order of the store: it is the store with the rest dropped. */
  lemma {:induction false} QueryIsSubsequence(notes: seq<Note>, userId: UserId, start: Option<Micros>, end: Option<Micros>)
    ensures IsSubsequence(NotesByUserAndDate(notes, userId, start, end), notes)
  {
    if notes != [] {
      var init := notes[..|notes| - 1];
      QueryIsSubsequence(init, userId, start, end);
      var last := notes[|notes| - 1];
      SubsequenceExtend(NotesByUserAndDate(init, userId, start, end), init, last,
                        MatchesUserAndDate(last, userId, start, end));
      assert init + [last] == notes;
    }
  }

  /** `a` can be obtained from `b` by deleting elements. */
  ghost predicate IsSubsequence<T>(a: seq<T>, b: seq<T>)
  {
    exists pick: seq<nat> ::
      && |pick| == |a|
      && (forall i :: 0 <= i < |pick| ==> pick[i] < |b| && a[i] == b[pick[i]])
      && (forall i, j :: 0 <= i < j < |pick| ==> pick[i] < pick[j])
  }

  lemma SubsequenceExtend<T>(a: seq<T>, b: seq<T>, x: T, keep: bool)
    requires IsSubsequence(a, b)
    ensures IsSubsequence(a + (if keep then [x] else []), b + [x])
  {
    var pick: seq<nat> :| && |pick| == |a|
                          && (forall i :: 0 <= i < |pick| ==> pick[i] < |b| && a[i] == b[pick[i]])
                          && (forall i, j :: 0 <= i < j < |pick| ==> pick[i] < pick[j]);
    var a', b' := a + (if keep then [x] else []), b + [x];
    var pick' := pick + (if keep then [|b|] else []);
    assert |pick'| == |a'|;
    assert forall i :: 0 <= i < |pick'| ==> pick'[i] < |b'| && a'[i] == b'[pick'[i]];
    assert forall i, j :: 0 <= i < j < |pick'| ==> pick'[i] < pick'[j];
  }

  // ---------------------------------------------------------------- the store

  /** The `notes` table with its autoincrement id counter. */
  class NoteStore {
    var notes: seq<Note>
    var nextId: int

    ghost predicate Valid()
      reads this
    {
      && IdsUnique(notes)
      && (forall i :: 0 <= i < |notes| ==> notes[i].id < nextId)
    }

    constructor ()
      ensures Valid() && notes == [] && nextId == 1
    {
      notes := [];
      nextId := 1;
    }

    /**
     * `create_user_note`: classify the text, store a note with the caller's user id,
     * a fresh id, the creation time `now` (the column default) and the four counts,
     * and return it.
     */
    method CreateUserNote(text: string, userId: UserId, now: Micros) returns (note: Note)
      requires Valid()
      modifies this
      ensures Valid()
      ensures note == Note(old(nextId), userId, text, now, Analysis.Classify(text))
      ensures notes == old(notes) + [note]
      ensures nextId == old(nextId) + 1
    {
      var emotionCounts := Analysis.AnalyzeText(text);
      note := Note(nextId, userId, text, now, emotionCounts);
      notes := notes + [note];
      nextId := nextId + 1;
    }

    /**
     * `update_user_note`: assign the supplied fields. The update schema has the one
     * field `text`, so only the text changes; id, owner, creation time and the
     * stored counts stay as they were and are not recomputed.
     */
    method UpdateUserNote(k: nat, text: string) returns (note: Note)
      requires Valid() && k < |notes|
      modifies this
      ensures Valid()
      ensures note == old(notes[k]).(text := text)
      ensures notes == old(notes)[k := note]
      ensures nextId == old(nextId)
    {
      note := notes[k].(text := text);
      notes := notes[k := note];
    }

    /** `delete_user_note`: remove the note. */
    method DeleteUserNote(k: nat)
      requires Valid() && k < |notes|
      modifies this
      ensures Valid()
      ensures notes == old(notes[..k] + notes[k + 1..])
      ensures nextId == old(nextId)
    {
      notes := notes[..k] + notes[k + 1..];
    }
  }

  /** Deleting position `k` removes exactly the note with that id and keeps every other note. */
  lemma DeleteRemovesOnlyThatNote(notes: seq<Note>, k: nat)
    requires IdsUnique(notes) && k < |notes|
    ensures forall n :: n in notes[..k] + notes[k + 1..] <==> n in notes && n.id != notes[k].id
    ensures FindNote(notes[..k] + notes[k + 1..], notes[k].id).None?
  {
    var rest := notes[..k] + notes[k + 1..];
    forall n | n in notes && n.id != notes[k].id
      ensures n in rest
    {
      var i :| 0 <= i < |notes| && notes[i] == n;
      if i < k {
        assert rest[i] == n;
      } else {
        assert i != k;
        assert rest[i - 1] == n;
      }
    }
    forall j | 0 <= j < |rest|
      ensures rest[j].id != notes[k].id
    {
      if j < k {
        assert rest[j] == notes[j];
      } else {
        assert rest[j] == notes[j + 1];
      }
    }
  }

  /** A created note is found by its id, and carries the classification of its text. */
  lemma CreatedNoteIsFound(notes: seq<Note>, nextId: int, note: Note)
    requires forall i :: 0 <= i < |notes| ==> notes[i].id < nextId
    requires note.id == nextId
    ensures FindNote(notes + [note], nextId) == Some(|notes|)
  {
    assert (notes + [note])[|notes|].id == nextId;
  }
}
