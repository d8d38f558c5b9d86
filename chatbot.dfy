/**
 * The prompt of the chat assistant (app/services/chatbot_service.py): the
 * user's notes of the current UTC week are summed, their prevalent emotion is
 * named in an assistant message, and the user's message follows. The call to
 * the language model that answers the prompt is not modelled.
 */
module Chatbot {
  import opened Wrappers
  import opened Emotions
  import opened Calendar
  import opened NoteService
  import opened EmotionTotals

  datatype Role = System | Assistant | User

  datatype ChatMessage = ChatMessage(role: Role, content: string)

  const SYSTEM_PROMPT: string := "You are a mental health assistant."

  /** Monday 00:00 UTC of the week of `now`. */
  function ChatWindowStart(now: Micros): (t: Micros)
    ensures t == StartOfDay(WeekStart(DayOf(now)))
    ensures DayOf(t) == WeekStart(DayOf(now)) && Weekday(DayOf(t)) == 0
    ensures t <= now
  {
    DayOfIff(StartOfDay(WeekStart(DayOf(now))), WeekStart(DayOf(now)));
    StartOfDayMonotone(WeekStart(DayOf(now)), DayOf(now));
    StartOfDay(WeekStart(DayOf(now)))
  }

  /** Sunday 00:00 of that week plus one day: the following Monday 00:00. */
  function ChatWindowEnd(now: Micros): (t: Micros)
    ensures t == StartOfDay(WeekStart(DayOf(now)) + 7)
    ensures now < t
  {
    StartOfDayMonotone(DayOf(now) + 1, WeekStart(DayOf(now)) + 7);
    StartOfDay(WeekStart(DayOf(now)) + 6) + MICROS_PER_DAY
  }

  /** The assistant message naming the prevalent emotion. */
  function EmotionSummary(p: Emotion): string
  {
    "The user's prevalent emotion this week has been " + Name(p) + "."
  }

  /**
   * `get_chatbot_response` up to the model call, for the user `userId` at the time
   * `now`: fetch the week's notes, sum their counts, take the prevalent emotion and
   * build the three-message prompt.
   */
  method BuildPrompt(notes: seq<Note>, userId: UserId, userMessage: string, now: Micros)
    returns (totals: Counts, prevalent: Emotion, messages: seq<ChatMessage>)
    ensures totals == Total(NotesByUserAndDate(notes, userId, Some(ChatWindowStart(now)), Some(ChatWindowEnd(now))))
    ensures forall x :: totals.Get(x) <= totals.Get(prevalent)
    ensures forall x :: Rank(x) < Rank(prevalent) ==> totals.Get(x) < totals.Get(prevalent)
    ensures |messages| == 3
    ensures messages[0] == ChatMessage(System, SYSTEM_PROMPT)
    ensures messages[1] == ChatMessage(Assistant, EmotionSummary(prevalent))
    ensures messages[2] == ChatMessage(User, userMessage)
  {
    var fetched := NotesByUserAndDate(notes, userId, Some(ChatWindowStart(now)), Some(ChatWindowEnd(now)));
    totals := Zero;
    for j := 0 to |fetched|
      invariant totals == Total(fetched[..j])
    {
      TotalAppend(fetched[..j], fetched[j]);
      assert fetched[..j + 1] == fetched[..j] + [fetched[j]];
      totals := totals.Plus(fetched[j].counts);
    }
    assert fetched[..|fetched|] == fetched;
    prevalent := Prevalent(totals);
    messages := [
      ChatMessage(System, SYSTEM_PROMPT),
      ChatMessage(Assistant, EmotionSummary(prevalent)),
      ChatMessage(User, userMessage)
    ];
  }

  /**
   * A note is summed exactly when it is the user's and falls on a day of the week,
   * or is stamped at the following Monday 00:00 exactly: the end bound is inclusive.
   */
  lemma ChatWindowIff(notes: seq<Note>, n: Note, userId: UserId, now: Micros)
    requires n in notes
    ensures var m := WeekStart(DayOf(now));
      n in NotesByUserAndDate(notes, userId, Some(ChatWindowStart(now)), Some(ChatWindowEnd(now)))
      <==> n.userId == userId && (m <= DayOf(n.createdAt) <= m + 6 || n.createdAt == StartOfDay(m + 7))
  {
    var m := WeekStart(DayOf(now));
    WholeDaysIff(n.createdAt, m, m + 6);
  }

  /** With no notes in the window the totals are zero and the prompt names "happy". */
  lemma NoNotesNameHappy(totals: Counts, prevalent: Emotion)
    requires totals == Total([])
    requires forall x :: totals.Get(x) <= totals.Get(prevalent)
    requires forall x :: Rank(x) < Rank(prevalent) ==> totals.Get(x) < totals.Get(prevalent)
    ensures prevalent == Happy
    ensures EmotionSummary(prevalent) == "The user's prevalent emotion this week has been happy."
  {
    PrevalentIsFirstMaximum(totals, prevalent);
    PrevalentOfZeroIsHappy();
  }
}
