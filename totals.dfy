/**
 * Sums of stored emotion vectors: over a list of notes, over the notes of one
 * day, and over the notes of a span of days. These are the reference
 * definitions that the aggregating endpoints are proved against.
 */
module EmotionTotals {
  import opened Emotions
  import opened Calendar
  import opened Wrappers
  import opened NoteService

  /** Componentwise sum of the counts of all the notes. */
  function Total(notes: seq<Note>): Counts
  {
    if notes == [] then Zero
    else Total(notes[..|notes| - 1]).Plus(notes[|notes| - 1].counts)
  }

  /** Componentwise sum of the counts of the notes created on day `d`. */
  function DayTotal(notes: seq<Note>, d: Day): Counts
  {
    if notes == [] then Zero
    else
      var last := notes[|notes| - 1];
      var rest := DayTotal(notes[..|notes| - 1], d);
      if DayOf(last.createdAt) == d then rest.Plus(last.counts) else rest
  }

  /** Componentwise sum of the counts of the notes created on days `lo` to `hi`. */
  function SpanTotal(notes: seq<Note>, lo: Day, hi: Day): Counts
  {
    if notes == [] then Zero
    else
      var last := notes[|notes| - 1];
      var rest := SpanTotal(notes[..|notes| - 1], lo, hi);
      if lo <= DayOf(last.createdAt) <= hi then rest.Plus(last.counts) else rest
  }

  /** Sums add up over concatenation. */
  lemma {:induction false} TotalConcat(a: seq<Note>, b: seq<Note>)
    ensures Total(a + b) == Total(a).Plus(Total(b))
    decreases |b|
  {
    if b == [] {
      assert a + b == a;
      PlusZero(Total(a));
    } else {
      var b' := b[..|b| - 1];
      assert (a + b)[..|a + b| - 1] == a + b';
      TotalConcat(a, b');
      PlusAssociative(Total(a), Total(b'), b[|b| - 1].counts);
    }
  }

  /** A span sum is the sum of the span without its last day plus that day. */
  lemma {:induction false} SpanTotalSplitLastDay(notes: seq<Note>, lo: Day, hi: Day)
    requires lo <= hi
    ensures SpanTotal(notes, lo, hi) == SpanTotal(notes, lo, hi - 1).Plus(DayTotal(notes, hi))
  {
    if notes == [] {
      PlusZero(Zero);
    } else {
      var init, last := notes[..|notes| - 1], notes[|notes| - 1];
      SpanTotalSplitLastDay(init, lo, hi);
    }
  }

  /** A one-day span is that day. */
  lemma {:induction false} SpanTotalOneDay(notes: seq<Note>, d: Day)
    ensures SpanTotal(notes, d, d) == DayTotal(notes, d)
  {
    if notes != [] {
      SpanTotalOneDay(notes[..|notes| - 1], d);
    }
  }

  /** An empty span sums to zero. */
  lemma {:induction false} SpanTotalEmptySpan(notes: seq<Note>, lo: Day, hi: Day)
    requires hi < lo
    ensures SpanTotal(notes, lo, hi) == Zero
  {
    if notes != [] {
      var init, last := notes[..|notes| - 1], notes[|notes| - 1];
      SpanTotalEmptySpan(init, lo, hi);
    }
  }

  /** The sum of the day sums of the `k` days starting at `lo`. */
  function SumOfDays(notes: seq<Note>, lo: Day, k: nat): Counts
  {
    if k == 0 then Zero else SumOfDays(notes, lo, k - 1).Plus(DayTotal(notes, lo + k - 1))
  }

  /** Adding the next day to both sides of `SpanTotalIsSumOfDays`. */
  lemma SumOfDaysStep(notes: seq<Note>, lo: Day, k: nat)
    requires k > 0
    requires SpanTotal(notes, lo, lo + k - 2) == SumOfDays(notes, lo, k - 1)
    ensures SpanTotal(notes, lo, lo + k - 1) == SumOfDays(notes, lo, k)
  {
    SpanTotalSplitLastDay(notes, lo, lo + k - 1);
  }

  /** A span of `k` days sums to the sum of its `k` day sums. */
  lemma {:induction false} SpanTotalIsSumOfDays(notes: seq<Note>, lo: Day, k: nat)
    ensures SpanTotal(notes, lo, lo + k - 1) == SumOfDays(notes, lo, k)
  {
    if k == 0 {
      SpanTotalEmptySpan(notes, lo, lo - 1);
    } else {
      SpanTotalIsSumOfDays(notes, lo, k - 1);
      SumOfDaysStep(notes, lo, k);
    }
  }

  /** A note dated outside the span adds nothing to it, wherever it sits. */
  lemma {:induction false} SpanTotalIgnoresOutsideNote(a: seq<Note>, n: Note, b: seq<Note>, lo: Day, hi: Day)
    requires !(lo <= DayOf(n.createdAt) <= hi)
    ensures SpanTotal(a + [n] + b, lo, hi) == SpanTotal(a + b, lo, hi)
    decreases |b|
  {
    if b == [] {
      assert (a + [n] + b)[..|a + [n] + b| - 1] == a;
      assert a + b == a;
    } else {
      var b' := b[..|b| - 1];
      assert (a + [n] + b)[..|a + [n] + b| - 1] == a + [n] + b';
      assert (a + b)[..|a + b| - 1] == a + b';
      SpanTotalIgnoresOutsideNote(a, n, b', lo, hi);
    }
  }

  /** Appending one note to a list. */
  lemma SpanTotalAppend(ns: seq<Note>, n: Note, lo: Day, hi: Day)
    ensures SpanTotal(ns + [n], lo, hi)
         == if lo <= DayOf(n.createdAt) <= hi then SpanTotal(ns, lo, hi).Plus(n.counts) else SpanTotal(ns, lo, hi)
  {
    assert (ns + [n])[..|ns + [n]| - 1] == ns;
  }

  lemma DayTotalAppend(ns: seq<Note>, n: Note, d: Day)
    ensures DayTotal(ns + [n], d)
         == if DayOf(n.createdAt) == d then DayTotal(ns, d).Plus(n.counts) else DayTotal(ns, d)
  {
    assert (ns + [n])[..|ns + [n]| - 1] == ns;
  }

  lemma TotalAppend(ns: seq<Note>, n: Note)
    ensures Total(ns + [n]) == Total(ns).Plus(n.counts)
  {
    assert (ns + [n])[..|ns + [n]| - 1] == ns;
  }

  /** The notes created on day `d`, in order. */
  function OnDay(ns: seq<Note>, d: Day): (r: seq<Note>)
    ensures forall n :: n in r <==> n in ns && DayOf(n.createdAt) == d
  {
    if ns == [] then []
    else
      var last := ns[|ns| - 1];
      assert ns == ns[..|ns| - 1] + [last];
      OnDay(ns[..|ns| - 1], d) + (if DayOf(last.createdAt) == d then [last] else [])
  }

  lemma OnDayAppend(ns: seq<Note>, n: Note, d: Day)
    ensures OnDay(ns + [n], d) == OnDay(ns, d) + (if DayOf(n.createdAt) == d then [n] else [])
  {
    assert (ns + [n])[..|ns + [n]| - 1] == ns;
  }

  /** A day's sum is the total of the day's notes. */
  lemma {:induction false} TotalOnDay(ns: seq<Note>, d: Day)
    ensures Total(OnDay(ns, d)) == DayTotal(ns, d)
  {
    if ns != [] {
      var init, last := ns[..|ns| - 1], ns[|ns| - 1];
      TotalOnDay(init, d);
      if DayOf(last.createdAt) == d {
        TotalAppend(OnDay(init, d), last);
      } else {
        assert OnDay(init, d) + [] == OnDay(init, d);
      }
    }
  }

  /** A note of the user dated inside the span passes a query whose bounds cover the span. */
  lemma CoveringQueryKeepsSpanNote(n: Note, userId: UserId, lo: Day, hi: Day, start: Micros, end: Micros)
    requires start <= StartOfDay(lo) && EndOfDay(hi) <= end
    requires n.userId == userId && lo <= DayOf(n.createdAt) <= hi
    ensures MatchesUserAndDate(n, userId, Some(start), Some(end))
  {
    DayOfIff(n.createdAt, DayOf(n.createdAt));
    assert StartOfDay(lo) <= StartOfDay(DayOf(n.createdAt));
    assert StartOfDay(DayOf(n.createdAt) + 1) <= StartOfDay(hi + 1);
  }

  /** Restricting to the notes whose timestamps cover the span changes no span sum:
      the span's notes are all kept. */
  lemma {:induction false} SpanTotalOfCoveringQuery(notes: seq<Note>, userId: UserId, lo: Day, hi: Day, start: Micros, end: Micros)
    requires start <= StartOfDay(lo) && EndOfDay(hi) <= end
    ensures SpanTotal(NotesByUserAndDate(notes, userId, Some(start), Some(end)), lo, hi)
         == SpanTotal(NotesByUser(notes, userId), lo, hi)
  {
    if notes != [] {
      var init, last := notes[..|notes| - 1], notes[|notes| - 1];
      SpanTotalOfCoveringQuery(init, userId, lo, hi, start, end);
      var q := NotesByUserAndDate(init, userId, Some(start), Some(end));
      var u := NotesByUser(init, userId);
      var keep := MatchesUserAndDate(last, userId, Some(start), Some(end));
      assert NotesByUserAndDate(notes, userId, Some(start), Some(end)) == q + (if keep then [last] else []);
      assert NotesByUser(notes, userId) == u + (if last.userId == userId then [last] else []);
      if last.userId == userId && lo <= DayOf(last.createdAt) <= hi {
        CoveringQueryKeepsSpanNote(last, userId, lo, hi, start, end);
      }
      if keep {
        SpanTotalAppend(q, last, lo, hi);
      } else {
        assert q + [] == q;
      }
      if last.userId == userId {
        SpanTotalAppend(u, last, lo, hi);
      } else {
        assert u + [] == u;
      }
    }
  }

  /** The one-day form of `SpanTotalOfCoveringQuery`. */
  lemma DayTotalOfCoveringQuery(notes: seq<Note>, userId: UserId, lo: Day, hi: Day, start: Micros, end: Micros, d: Day)
    requires start <= StartOfDay(lo) && EndOfDay(hi) <= end && lo <= d <= hi
    ensures DayTotal(NotesByUserAndDate(notes, userId, Some(start), Some(end)), d)
         == DayTotal(NotesByUser(notes, userId), d)
  {
    SpanTotalOfCoveringQuery(notes, userId, d, d, start, end);
    SpanTotalOneDay(NotesByUserAndDate(notes, userId, Some(start), Some(end)), d);
    SpanTotalOneDay(NotesByUser(notes, userId), d);
  }
}
