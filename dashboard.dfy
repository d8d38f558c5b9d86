/**
 * The weekly dashboard (app/api/endpoints/dashboard.py): the user's note count,
 * the emotion totals of the current week, one entry per day of the week, and
 * the prevalent emotion of today.
 */
module Dashboard {
  import opened Wrappers
  import opened Emotions
  import opened Calendar
  import opened NoteService
  import opened EmotionTotals

  /** One point of the weekly graph. The ISO date string is its day number:
      ISO dates compare as strings exactly as their day numbers compare. */
  datatype DailyEmotionData = DailyEmotionData(date: Day, emotions: Counts)

  /** The response, without the profile fields copied from the user record. */
  datatype DashboardData = DashboardData(
    totalNotes: nat,
    emotionCounts: Counts,
    weeklyEmotionData: seq<DailyEmotionData>,
    prevalentEmotionToday: Option<Emotion>)

  /** Start of the query window: Monday 00:00 of the week. */
  function WindowStart(today: Day): (t: Micros)
    ensures t == StartOfDay(WeekStart(today))
    ensures DayOf(t) == WeekStart(today) && Weekday(DayOf(t)) == 0
    ensures t <= StartOfDay(today)
  {
    DayOfIff(StartOfDay(WeekStart(today)), WeekStart(today));
    StartOfDayMonotone(WeekStart(today), today);
    StartOfDay(WeekStart(today))
  }

  /** End of the query window: Sunday 23:59:59.999999 plus one second. */
  function WindowEnd(today: Day): (t: Micros)
    ensures t == StartOfDay(WeekStart(today) + 7) + MICROS_PER_SECOND - 1
  {
    EndOfDay(WeekStart(today) + 6) + MICROS_PER_SECOND
  }

  /** Componentwise sum of the entries of the weekly graph. */
  function WeeklySum(w: seq<DailyEmotionData>): Counts
  {
    if w == [] then Zero else WeeklySum(w[..|w| - 1]).Plus(w[|w| - 1].emotions)
  }

  /** The bucket map: the seven days from `startOfWeek`, each with all four counts at zero. */
  ghost predicate IsWeekMap(daily: map<Day, Counts>, startOfWeek: Day)
  {
    forall k :: k in daily <==> startOfWeek <= k <= startOfWeek + 6
  }

  /** The 7-step loop that creates one zeroed bucket per day of the week. */
  method EmptyBuckets(startOfWeek: Day) returns (daily: map<Day, Counts>)
    ensures IsWeekMap(daily, startOfWeek)
    ensures forall k :: k in daily ==> daily[k] == Zero
  {
    daily := map[];
    for i := 0 to 7
      invariant forall k :: k in daily <==> startOfWeek <= k < startOfWeek + i
      invariant forall k :: k in daily ==> daily[k] == Zero
    {
      daily := daily[startOfWeek + i := Zero];
    }
  }

  /**
   * The loop over the fetched notes: a note whose day is a key of the map adds its
   * counts to that day's bucket and to the totals; any other note is skipped.
   */
  method AddNotes(fetched: seq<Note>, startOfWeek: Day, empty: map<Day, Counts>)
    returns (daily: map<Day, Counts>, totals: Counts)
    requires IsWeekMap(empty, startOfWeek)
    requires forall k :: k in empty ==> empty[k] == Zero
    ensures IsWeekMap(daily, startOfWeek)
    ensures forall k :: k in daily ==> daily[k] == DayTotal(fetched, k)
    ensures totals == SpanTotal(fetched, startOfWeek, startOfWeek + 6)
  {
    daily, totals := empty, Zero;
    for j := 0 to |fetched|
      invariant IsWeekMap(daily, startOfWeek)
      invariant forall k :: k in daily ==> daily[k] == DayTotal(fetched[..j], k)
      invariant totals == SpanTotal(fetched[..j], startOfWeek, startOfWeek + 6)
    {
      var note := fetched[j];
      assert fetched[..j + 1] == fetched[..j] + [note];
      DayTotalAppendAll(fetched[..j], note);
      SpanTotalAppend(fetched[..j], note, startOfWeek, startOfWeek + 6);
      var noteDate := DayOf(note.createdAt);
      if noteDate in daily {
        daily := daily[noteDate := daily[noteDate].Plus(note.counts)];
        totals := totals.Plus(note.counts);
      }
    }
    assert fetched[..|fetched|] == fetched;
  }

  /** The graph data: the buckets in ascending order of their (ISO date) keys. */
  method WeeklyData(daily: map<Day, Counts>, startOfWeek: Day) returns (weekly: seq<DailyEmotionData>)
    requires IsWeekMap(daily, startOfWeek)
    ensures |weekly| == 7
    ensures forall k :: 0 <= k < 7 ==> weekly[k] == DailyEmotionData(startOfWeek + k, daily[startOfWeek + k])
  {
    // The keys are the seven consecutive days from `startOfWeek`, so sorting them is counting up.
    weekly := [];
    for i := 0 to 7
      invariant |weekly| == i
      invariant forall k :: 0 <= k < i ==> weekly[k] == DailyEmotionData(startOfWeek + k, daily[startOfWeek + k])
    {
      weekly := weekly + [DailyEmotionData(startOfWeek + i, daily[startOfWeek + i])];
    }
  }

  /**
   * `get_dashboard` on the store `notes` for the user `userId` on the day `today`.
   * The week is Monday to Sunday around `today`; the totals and the day entries
   * are those of the user's notes in it; today's prevalent emotion is that of
   * today's entry.
   */
  method GetDashboard(notes: seq<Note>, userId: UserId, today: Day) returns (d: DashboardData)
    ensures d.totalNotes == |NotesByUser(notes, userId)|
    ensures |d.weeklyEmotionData| == 7
    ensures forall k :: 0 <= k < 7 ==>
      && d.weeklyEmotionData[k].date == WeekStart(today) + k
      && d.weeklyEmotionData[k].emotions == DayTotal(NotesByUser(notes, userId), WeekStart(today) + k)
    ensures d.emotionCounts == SpanTotal(NotesByUser(notes, userId), WeekStart(today), WeekStart(today) + 6)
    ensures d.emotionCounts == WeeklySum(d.weeklyEmotionData)
    ensures d.prevalentEmotionToday == Some(Prevalent(DayTotal(NotesByUser(notes, userId), today)))
  {
    var totalNotes := CountNotesByUser(notes, userId);
    var startOfWeek := WeekStart(today);
    var fetched := NotesByUserAndDate(notes, userId, Some(WindowStart(today)), Some(WindowEnd(today)));
    var empty := EmptyBuckets(startOfWeek);
    var daily, totalEmotionCounts := AddNotes(fetched, startOfWeek, empty);
    var weekly := WeeklyData(daily, startOfWeek);

    var prevalentToday: Option<Emotion> := None;
    if today in daily {
      prevalentToday := Some(Prevalent(daily[today]));
    }

    d := DashboardData(totalNotes, totalEmotionCounts, weekly, prevalentToday);
    WeekProperties(notes, userId, today, fetched, d);
  }

  /** Every bucket of the map changes as `DayTotal` does when one note is appended. */
  lemma DayTotalAppendAll(ns: seq<Note>, n: Note)
    ensures forall k :: DayTotal(ns + [n], k) == if DayOf(n.createdAt) == k then DayTotal(ns, k).Plus(n.counts) else DayTotal(ns, k)
  {
    forall k
      ensures DayTotal(ns + [n], k) == if DayOf(n.createdAt) == k then DayTotal(ns, k).Plus(n.counts) else DayTotal(ns, k)
    {
      DayTotalAppend(ns, n, k);
    }
  }

  /** From sums over the fetched notes to sums over all the user's notes. */
  lemma WeekProperties(notes: seq<Note>, userId: UserId, today: Day, fetched: seq<Note>, d: DashboardData)
    requires fetched == NotesByUserAndDate(notes, userId, Some(WindowStart(today)), Some(WindowEnd(today)))
    requires |d.weeklyEmotionData| == 7
    requires forall k :: 0 <= k < 7 ==>
      d.weeklyEmotionData[k] == DailyEmotionData(WeekStart(today) + k, DayTotal(fetched, WeekStart(today) + k))
    requires d.emotionCounts == SpanTotal(fetched, WeekStart(today), WeekStart(today) + 6)
    requires d.prevalentEmotionToday == Some(Prevalent(DayTotal(fetched, today)))
    ensures forall k :: 0 <= k < 7 ==>
      d.weeklyEmotionData[k].emotions == DayTotal(NotesByUser(notes, userId), WeekStart(today) + k)
    ensures d.emotionCounts == SpanTotal(NotesByUser(notes, userId), WeekStart(today), WeekStart(today) + 6)
    ensures d.emotionCounts == WeeklySum(d.weeklyEmotionData)
    ensures d.prevalentEmotionToday == Some(Prevalent(DayTotal(NotesByUser(notes, userId), today)))
  {
    WeekDaysOfFetched(notes, userId, today);
    WeekTotalsOfFetched(notes, userId, today, fetched, d.weeklyEmotionData);
  }

  /** The week's span total over the fetched notes is the user's, and is the graph's sum. */
  lemma WeekTotalsOfFetched(notes: seq<Note>, userId: UserId, today: Day, fetched: seq<Note>, w: seq<DailyEmotionData>)
    requires fetched == NotesByUserAndDate(notes, userId, Some(WindowStart(today)), Some(WindowEnd(today)))
    requires |w| == 7
    requires forall k :: 0 <= k < 7 ==> w[k] == DailyEmotionData(WeekStart(today) + k, DayTotal(fetched, WeekStart(today) + k))
    ensures SpanTotal(fetched, WeekStart(today), WeekStart(today) + 6)
         == SpanTotal(NotesByUser(notes, userId), WeekStart(today), WeekStart(today) + 6)
    ensures SpanTotal(fetched, WeekStart(today), WeekStart(today) + 6) == WeeklySum(w)
  {
    var m := WeekStart(today);
    SpanTotalOfCoveringQuery(notes, userId, m, m + 6, WindowStart(today), WindowEnd(today));
    WeeklySumOfWeek(w, fetched, m);
  }

  /** Seven entries holding the seven day totals from `m` sum to the week's span total. */
  lemma WeeklySumOfWeek(w: seq<DailyEmotionData>, ns: seq<Note>, m: Day)
    requires |w| == 7
    requires forall k :: 0 <= k < 7 ==> w[k] == DailyEmotionData(m + k, DayTotal(ns, m + k))
    ensures WeeklySum(w) == SpanTotal(ns, m, m + 6)
  {
    WeeklySumIsSumOfDays(w, ns, m);
    SpanTotalIsSumOfDays(ns, m, 7);
  }

  /** Each day of the week sums the same over the fetched notes as over all the user's notes. */
  lemma WeekDaysOfFetched(notes: seq<Note>, userId: UserId, today: Day)
    ensures forall k :: WeekStart(today) <= k <= WeekStart(today) + 6 ==>
      DayTotal(NotesByUserAndDate(notes, userId, Some(WindowStart(today)), Some(WindowEnd(today))), k)
      == DayTotal(NotesByUser(notes, userId), k)
  {
    forall k | WeekStart(today) <= k <= WeekStart(today) + 6
      ensures DayTotal(NotesByUserAndDate(notes, userId, Some(WindowStart(today)), Some(WindowEnd(today))), k)
           == DayTotal(NotesByUser(notes, userId), k)
    {
      DayTotalOfCoveringQuery(notes, userId, WeekStart(today), WeekStart(today) + 6,
                              WindowStart(today), WindowEnd(today), k);
    }
  }

  /** Summing the graph's entries is summing the day totals they hold. */
  lemma {:induction false} WeeklySumIsSumOfDays(w: seq<DailyEmotionData>, ns: seq<Note>, lo: Day)
    requires forall k :: 0 <= k < |w| ==> w[k].emotions == DayTotal(ns, lo + k)
    ensures WeeklySum(w) == SumOfDays(ns, lo, |w|)
  {
    if w != [] {
      WeeklySumIsSumOfDays(w[..|w| - 1], ns, lo);
    }
  }

  /** The whole of Sunday is inside the query window, up to its last microsecond. */
  lemma SundayIsFetched(notes: seq<Note>, n: Note, today: Day)
    requires n in notes && DayOf(n.createdAt) == WeekStart(today) + 6
    ensures n in NotesByUserAndDate(notes, n.userId, Some(WindowStart(today)), Some(WindowEnd(today)))
  {
  }

  /** The window reaches past Sunday into the first second of the next Monday; a
      note stamped then is fetched but falls in no bucket and adds to no total. */
  lemma NextMondayIsFetchedButNotCounted(notes: seq<Note>, n: Note, today: Day)
    requires n in notes
    requires StartOfDay(WeekStart(today) + 7) <= n.createdAt < StartOfDay(WeekStart(today) + 7) + MICROS_PER_SECOND
    ensures n in NotesByUserAndDate(notes, n.userId, Some(WindowStart(today)), Some(WindowEnd(today)))
    ensures DayOf(n.createdAt) == WeekStart(today) + 7
  {
  }

  /** The query window of the dashboard holds exactly the user's notes from Monday
      00:00 to next Monday 00:00:00.999999: the whole week plus the first second of the
      next one. */
  lemma DashboardWindowIff(notes: seq<Note>, n: Note, userId: UserId, today: Day)
    requires n in notes
    ensures n in NotesByUserAndDate(notes, userId, Some(WindowStart(today)), Some(WindowEnd(today)))
      <==> (n.userId == userId
            && StartOfDay(WeekStart(today)) <= n.createdAt <= StartOfDay(WeekStart(today) + 7) + MICROS_PER_SECOND - 1)
    ensures var m := WeekStart(today);
      n in NotesByUserAndDate(notes, userId, Some(WindowStart(today)), Some(WindowEnd(today)))
      <==> (n.userId == userId
            && (m <= DayOf(n.createdAt) <= m + 6
                || StartOfDay(m + 7) <= n.createdAt < StartOfDay(m + 7) + MICROS_PER_SECOND))
  {
    var m := WeekStart(today);
    WholeDaysIff(n.createdAt, m, m + 6);
  }
}
