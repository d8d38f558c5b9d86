/**
 * The note endpoints (app/api/endpoints/notes.py): the ownership-checked update
 * and delete, the totals of one day, and the per-day prevalent emotion over a
 * range of dates.
 */
module NoteEndpoints {
  import opened Wrappers
  import opened Emotions
  import opened Calendar
  import opened NoteService
  import opened EmotionTotals

  /** The one error these endpoints raise: HTTP 404 "Note not found". */
  datatype HttpError = NotFound

  /** The guard of `update_note` and `delete_note`: the position of the note, when it
      exists and belongs to the caller. */
  function OwnedNote(notes: seq<Note>, noteId: int, userId: UserId): (r: Option<nat>)
    ensures r.Some? ==> r.value < |notes| && notes[r.value].id == noteId && notes[r.value].userId == userId
    ensures r.None? <==> FindNote(notes, noteId).None? || notes[FindNote(notes, noteId).value].userId != userId
  {
    match FindNote(notes, noteId)
    case None => None
    case Some(k) => if notes[k].userId == userId then Some(k) else None
  }

  /** With unique ids, the guard fails exactly when the caller owns no note with that id. */
  lemma OwnedNoteIff(notes: seq<Note>, noteId: int, userId: UserId)
    requires IdsUnique(notes)
    ensures OwnedNote(notes, noteId, userId).None?
        <==> forall j :: 0 <= j < |notes| ==> !(notes[j].id == noteId && notes[j].userId == userId)
  {
    if FindNote(notes, noteId).Some? {
      var k := FindNote(notes, noteId).value;
      assert forall j :: 0 <= j < |notes| && notes[j].id == noteId ==> j == k;
    }
  }

  /** `update_note`: 404 unless the caller owns the note; otherwise replace its text. */
  method UpdateNote(store: NoteStore, noteId: int, userId: UserId, text: string) returns (r: Result<Note, HttpError>)
    requires store.Valid()
    modifies store
    ensures store.Valid()
    ensures store.nextId == old(store.nextId)
    ensures r.Failure? <==> OwnedNote(old(store.notes), noteId, userId).None?
    ensures r.Failure? ==> r.error == NotFound && store.notes == old(store.notes)
    ensures r.Success? ==>
      var k := OwnedNote(old(store.notes), noteId, userId).value;
      && r.value == old(store.notes[k]).(text := text)
      && store.notes == old(store.notes)[k := r.value]
  {
    var found := OwnedNote(store.notes, noteId, userId);
    if found.None? {
      return Failure(NotFound);
    }
    var note := store.UpdateUserNote(found.value, text);
    r := Success(note);
  }

  /** `delete_note`: 404 unless the caller owns the note; otherwise remove it and
      return the removed note. */
  method DeleteNote(store: NoteStore, noteId: int, userId: UserId) returns (r: Result<Note, HttpError>)
    requires store.Valid()
    modifies store
    ensures store.Valid()
    ensures store.nextId == old(store.nextId)
    ensures r.Failure? <==> OwnedNote(old(store.notes), noteId, userId).None?
    ensures r.Failure? ==> r.error == NotFound && store.notes == old(store.notes)
    ensures r.Success? ==>
      var k := OwnedNote(old(store.notes), noteId, userId).value;
      && r.value == old(store.notes[k])
      && r.value.id == noteId && r.value.userId == userId
      && store.notes == old(store.notes[..k] + store.notes[k + 1..])
  {
    var found := OwnedNote(store.notes, noteId, userId);
    if found.None? {
      return Failure(NotFound);
    }
    var note := store.notes[found.value];
    store.DeleteUserNote(found.value);
    r := Success(note);
  }

  // ---------------------------------------------------------------- daily analysis

  /** The notes of the user created on day `d`, in store order. */
  function NotesOnDay(notes: seq<Note>, userId: UserId, d: Day): (r: seq<Note>)
    ensures forall n :: n in r <==> n in notes && n.userId == userId && DayOf(n.createdAt) == d
  {
    if notes == [] then []
    else
      var last := notes[|notes| - 1];
      assert notes == notes[..|notes| - 1] + [last];
      NotesOnDay(notes[..|notes| - 1], userId, d)
        + (if last.userId == userId && DayOf(last.createdAt) == d then [last] else [])
  }

  datatype DailyAnalysis = DailyAnalysis(date: Day, totalCounts: Counts, notes: seq<Note>)

  /** `get_daily_analysis`: the user's notes of the day and the sum of their counts. */
  function GetDailyAnalysis(notes: seq<Note>, userId: UserId, d: Day): (r: DailyAnalysis)
    ensures r.date == d
    ensures forall n :: n in r.notes <==> n in notes && n.userId == userId && DayOf(n.createdAt) == d
    ensures r.totalCounts == Total(r.notes)
  {
    var dayNotes := NotesOnDay(notes, userId, d);
    DailyAnalysis(d, Total(dayNotes), dayNotes)
  }

  /** The day's totals are the day's bucket over the user's notes, as on the dashboard. */
  lemma DailyTotalsAreDayTotal(notes: seq<Note>, userId: UserId, d: Day)
    ensures GetDailyAnalysis(notes, userId, d).totalCounts == DayTotal(NotesByUser(notes, userId), d)
  {
    NotesOnDayIsOnDayOfUser(notes, userId, d);
    TotalOnDay(NotesByUser(notes, userId), d);
  }

  /** Filtering by owner and day at once is filtering by owner, then by day. */
  lemma {:induction false} NotesOnDayIsOnDayOfUser(notes: seq<Note>, userId: UserId, d: Day)
    ensures NotesOnDay(notes, userId, d) == OnDay(NotesByUser(notes, userId), d)
  {
    if notes != [] {
      var init, last := notes[..|notes| - 1], notes[|notes| - 1];
      NotesOnDayIsOnDayOfUser(init, userId, d);
      var u := NotesByUser(init, userId);
      if last.userId == userId {
        OnDayAppend(u, last, d);
      } else {
        assert u + [] == u;
      }
    }
  }

  /** A day without notes of the user lists no notes and has all four totals at zero. */
  lemma {:induction false} DailyAnalysisOfEmptyDay(notes: seq<Note>, userId: UserId, d: Day)
    requires forall n :: n in notes && n.userId == userId ==> DayOf(n.createdAt) != d
    ensures GetDailyAnalysis(notes, userId, d).notes == []
    ensures GetDailyAnalysis(notes, userId, d).totalCounts == Zero
  {
    if notes != [] {
      var init := notes[..|notes| - 1];
      assert forall n :: n in init ==> n in notes;
      DailyAnalysisOfEmptyDay(init, userId, d);
    }
  }

  // ---------------------------------------------------------------- emotions summary

  /** The summary query's filter: the user's notes with `lo <= created_at < hi`. */
  function NotesInRange(notes: seq<Note>, userId: UserId, lo: Micros, hi: Micros): (r: seq<Note>)
    ensures forall n :: n in r <==> n in notes && n.userId == userId && lo <= n.createdAt < hi
  {
    if notes == [] then []
    else
      var last := notes[|notes| - 1];
      assert notes == notes[..|notes| - 1] + [last];
      NotesInRange(notes[..|notes| - 1], userId, lo, hi)
        + (if last.userId == userId && lo <= last.createdAt < hi then [last] else [])
  }

  /** One row of the grouped query: a date and the sums of the four columns. */
  datatype Group = Group(date: Day, counts: Counts)

  /** Whether some note falls on day `d`. */
  predicate HasNoteOn(ns: seq<Note>, d: Day)
  {
    exists i :: 0 <= i < |ns| && DayOf(ns[i].createdAt) == d
  }

  /** `GROUP BY date(created_at)` over `ns` restricted to the days `lo` to `hi`: one row per
      day with at least one note, in ascending date order. */
  function GroupByDay(ns: seq<Note>, lo: Day, hi: Day): (r: seq<Group>)
    ensures forall i :: 0 <= i < |r| ==> lo <= r[i].date <= hi
    decreases hi - lo
  {
    if hi < lo then []
    else (if HasNoteOn(ns, lo) then [Group(lo, DayTotal(ns, lo))] else []) + GroupByDay(ns, lo + 1, hi)
  }

  datatype DailyEmotionSummary = DailyEmotionSummary(date: Day, prevalentEmotion: Emotion)

  /** The grouped rows of the summary query for the dates `startDate` to `endDate`. */
  function SummaryGroups(notes: seq<Note>, userId: UserId, startDate: Day, endDate: Day): seq<Group>
  {
    GroupByDay(NotesInRange(notes, userId, StartOfDay(startDate), StartOfDay(endDate + 1)), startDate, endDate)
  }

  /**
   * `get_emotions_summary`: the end date is moved one day on, the user's notes from
   * the start date's midnight up to (not including) that day's midnight are grouped
   * by date, and each group is reported with its prevalent emotion.
   */
  method GetEmotionsSummary(notes: seq<Note>, userId: UserId, startDate: Day, endDate: Day)
    returns (result: seq<DailyEmotionSummary>)
    ensures |result| == |SummaryGroups(notes, userId, startDate, endDate)|
    ensures forall i :: 0 <= i < |result| ==>
      var g := SummaryGroups(notes, userId, startDate, endDate)[i];
      result[i] == DailyEmotionSummary(g.date, Prevalent(g.counts))
  {
    var end := endDate + 1;
    var emotionSummaries := GroupByDay(NotesInRange(notes, userId, StartOfDay(startDate), StartOfDay(end)), startDate, endDate);
    result := [];
    for i := 0 to |emotionSummaries|
      invariant |result| == i
      invariant forall j :: 0 <= j < i ==>
        result[j] == DailyEmotionSummary(emotionSummaries[j].date, Prevalent(emotionSummaries[j].counts))
    {
      var summary := emotionSummaries[i];
      var prevalentEmotion := Prevalent(summary.counts);
      result := result + [DailyEmotionSummary(summary.date, prevalentEmotion)];
    }
  }

  /** The rows are in strictly ascending date order. */
  lemma {:induction false} GroupsAscending(ns: seq<Note>, lo: Day, hi: Day)
    ensures forall i, j :: 0 <= i < j < |GroupByDay(ns, lo, hi)| ==>
      GroupByDay(ns, lo, hi)[i].date < GroupByDay(ns, lo, hi)[j].date
    decreases hi - lo
  {
    if lo <= hi {
      GroupsAscending(ns, lo + 1, hi);
    }
  }

  /** Each row holds the sums of its day. */
  lemma {:induction false} GroupsHoldDayTotals(ns: seq<Note>, lo: Day, hi: Day)
    ensures forall i :: 0 <= i < |GroupByDay(ns, lo, hi)| ==>
      GroupByDay(ns, lo, hi)[i].counts == DayTotal(ns, GroupByDay(ns, lo, hi)[i].date)
    decreases hi - lo
  {
    if lo <= hi {
      GroupsHoldDayTotals(ns, lo + 1, hi);
    }
  }

  /** Every row's day has a note. */
  lemma {:induction false} GroupsAreNonEmptyDays(ns: seq<Note>, lo: Day, hi: Day)
    ensures forall i :: 0 <= i < |GroupByDay(ns, lo, hi)| ==> HasNoteOn(ns, GroupByDay(ns, lo, hi)[i].date)
    decreases hi - lo
  {
    if lo <= hi {
      GroupsAreNonEmptyDays(ns, lo + 1, hi);
    }
  }

  /** Every day in range with a note has a row. */
  lemma {:induction false} NonEmptyDaysHaveGroups(ns: seq<Note>, lo: Day, hi: Day, d: Day)
    requires lo <= d <= hi && HasNoteOn(ns, d)
    ensures exists i :: 0 <= i < |GroupByDay(ns, lo, hi)| && GroupByDay(ns, lo, hi)[i].date == d
    decreases hi - lo
  {
    var r := GroupByDay(ns, lo, hi);
    if d == lo {
      assert r[0].date == d;
    } else {
      NonEmptyDaysHaveGroups(ns, lo + 1, hi, d);
      var rest := GroupByDay(ns, lo + 1, hi);
      var i :| 0 <= i < |rest| && rest[i].date == d;
      var head := if HasNoteOn(ns, lo) then [Group(lo, DayTotal(ns, lo))] else [];
      assert r == head + rest;
      assert r[i + |head|].date == d;
    }
  }

  /** Within the range, a day's notes of the range query are that day's notes of the user. */
  lemma {:induction false} RangeOnDayIsNotesOnDay(notes: seq<Note>, userId: UserId, s: Day, e: Day, d: Day)
    requires s <= d <= e
    ensures OnDay(NotesInRange(notes, userId, StartOfDay(s), StartOfDay(e + 1)), d) == NotesOnDay(notes, userId, d)
  {
    if notes != [] {
      var init, last := notes[..|notes| - 1], notes[|notes| - 1];
      RangeOnDayIsNotesOnDay(init, userId, s, e, d);
      WholeDaysIff(last.createdAt, s, e);
      var q := NotesInRange(init, userId, StartOfDay(s), StartOfDay(e + 1));
      if last.userId == userId && StartOfDay(s) <= last.createdAt < StartOfDay(e + 1) {
        OnDayAppend(q, last, d);
      } else {
        assert q + [] == q;
      }
    }
  }

  /** A day has a note in a sequence exactly when its day filter is non-empty. */
  lemma HasNoteOnIff(ns: seq<Note>, d: Day)
    ensures HasNoteOn(ns, d) <==> OnDay(ns, d) != []
  {
    if HasNoteOn(ns, d) {
      var i :| 0 <= i < |ns| && DayOf(ns[i].createdAt) == d;
      assert ns[i] in OnDay(ns, d);
    }
    if OnDay(ns, d) != [] {
      var n := OnDay(ns, d)[0];
      assert n in OnDay(ns, d);
      var i :| 0 <= i < |ns| && ns[i] == n;
    }
  }

  /** Within the range, a day's sums and non-emptiness in the range query are those of
      its daily analysis. */
  lemma RangeDayIsDailyAnalysis(notes: seq<Note>, userId: UserId, s: Day, e: Day, d: Day)
    requires s <= d <= e
    ensures var q := NotesInRange(notes, userId, StartOfDay(s), StartOfDay(e + 1));
      && DayTotal(q, d) == GetDailyAnalysis(notes, userId, d).totalCounts
      && (HasNoteOn(q, d) <==> GetDailyAnalysis(notes, userId, d).notes != [])
  {
    var q := NotesInRange(notes, userId, StartOfDay(s), StartOfDay(e + 1));
    RangeOnDayIsNotesOnDay(notes, userId, s, e, d);
    TotalOnDay(q, d);
    HasNoteOnIff(q, d);
  }

  /** Each row of the summary is a day from `s` to `e` on which the user wrote a note,
      and holds the daily-analysis totals of that day. */
  lemma SummaryRowsAreDailyAnalyses(notes: seq<Note>, userId: UserId, s: Day, e: Day)
    ensures forall i :: 0 <= i < |SummaryGroups(notes, userId, s, e)| ==>
      var g := SummaryGroups(notes, userId, s, e)[i];
      && s <= g.date <= e
      && GetDailyAnalysis(notes, userId, g.date).notes != []
      && g.counts == GetDailyAnalysis(notes, userId, g.date).totalCounts
  {
    var q := NotesInRange(notes, userId, StartOfDay(s), StartOfDay(e + 1));
    var g := GroupByDay(q, s, e);
    GroupsHoldDayTotals(q, s, e);
    GroupsAreNonEmptyDays(q, s, e);
    forall i | 0 <= i < |g|
      ensures GetDailyAnalysis(notes, userId, g[i].date).notes != []
      ensures g[i].counts == GetDailyAnalysis(notes, userId, g[i].date).totalCounts
    {
      RangeDayIsDailyAnalysis(notes, userId, s, e, g[i].date);
    }
  }

  /** Every day from `s` to `e` on which the user wrote a note has a row. */
  lemma SummaryCoversNonEmptyDays(notes: seq<Note>, userId: UserId, s: Day, e: Day, d: Day)
    requires s <= d <= e && GetDailyAnalysis(notes, userId, d).notes != []
    ensures exists i :: 0 <= i < |SummaryGroups(notes, userId, s, e)| && SummaryGroups(notes, userId, s, e)[i].date == d
  {
    var q := NotesInRange(notes, userId, StartOfDay(s), StartOfDay(e + 1));
    RangeDayIsDailyAnalysis(notes, userId, s, e, d);
    assert HasNoteOn(q, d);
    NonEmptyDaysHaveGroups(q, s, e, d);
    assert SummaryGroups(notes, userId, s, e) == GroupByDay(q, s, e);
  }

  /** The summary lists its days in strictly ascending order. */
  lemma SummaryAscending(notes: seq<Note>, userId: UserId, s: Day, e: Day)
    ensures forall i, j :: 0 <= i < j < |SummaryGroups(notes, userId, s, e)| ==>
      SummaryGroups(notes, userId, s, e)[i].date < SummaryGroups(notes, userId, s, e)[j].date
  {
    GroupsAscending(NotesInRange(notes, userId, StartOfDay(s), StartOfDay(e + 1)), s, e);
  }

  /** An end date before the start date gives an empty summary. */
  lemma SummaryOfEmptyRange(notes: seq<Note>, userId: UserId, s: Day, e: Day)
    requires e < s
    ensures SummaryGroups(notes, userId, s, e) == []
  {
  }
}
