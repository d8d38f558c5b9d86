/**
 * Keyword-based emotion tagging of free text (app/core/analysis.py).
 *
 * The text is lower-cased, cut into the maximal runs of word characters that
 * the regular expression `\b\w+\b` finds, and every token adds one to each
 * category whose keyword list contains it.
 */
module Analysis {
  import opened Emotions
  import opened Sequences

  /** The fixed keyword table, one list per category. */
  function Keywords(e: Emotion): seq<string>
  {
    match e
    case Happy => ["happy", "joyful", "elated", "refreshing", "shining"]
    case Calm => ["calm", "relaxed", "peaceful", "serene"]
    case Sad => ["sad", "down", "unhappy", "depressed"]
    case Upset => ["upset", "angry", "frustrated", "irritated"]
  }

  /** No keyword appears in two lists. */
  lemma KeywordListsDisjoint(a: Emotion, b: Emotion, w: string)
    requires a != b && w in Keywords(a)
    ensures w !in Keywords(b)
  {
  }

  // ---------------------------------------------------------------- lowering

  /** `str.lower` restricted to ASCII: A-Z become a-z, everything else stays. */
  function ToLower(c: char): char
  {
    if 'A' <= c <= 'Z' then (c as int + 32) as char else c
  }

  function Lower(s: string): (r: string)
    ensures |r| == |s|
    ensures forall i :: 0 <= i < |s| ==> r[i] == ToLower(s[i])
  {
    seq(|s|, i requires 0 <= i < |s| => ToLower(s[i]))
  }

  lemma LowerConcat(a: string, b: string)
    ensures Lower(a + b) == Lower(a) + Lower(b)
  {
  }

  lemma LowerIdempotent(s: string)
    ensures Lower(Lower(s)) == Lower(s)
  {
  }

  // ---------------------------------------------------------------- tokens

  /** `\w` restricted to ASCII: letters, digits and underscore. */
  predicate IsWordChar(c: char)
  {
    'a' <= c <= 'z' || 'A' <= c <= 'Z' || '0' <= c <= '9' || c == '_'
  }

  /** A token: a non-empty string of word characters. */
  predicate IsWord(w: string)
  {
    |w| > 0 && forall i :: 0 <= i < |w| ==> IsWordChar(w[i])
  }

  /** Length of the run of word characters that starts `s`. */
  function RunLength(s: string): (n: nat)
    ensures n <= |s|
    ensures forall i :: 0 <= i < n ==> IsWordChar(s[i])
    ensures n < |s| ==> !IsWordChar(s[n])
    decreases |s|
  {
    if s == [] || !IsWordChar(s[0]) then 0 else 1 + RunLength(s[1..])
  }

  /** `re.findall(r'\b\w+\b', s)`: the maximal runs of word characters, left to right. */
  function Tokens(s: string): (ws: seq<string>)
    ensures forall i :: 0 <= i < |ws| ==> IsWord(ws[i])
    decreases |s|
  {
    if s == [] then []
    else if !IsWordChar(s[0]) then Tokens(s[1..])
    else
      var n := RunLength(s);
      [s[..n]] + Tokens(s[n..])
  }

  /** A run of word characters stops at the first separator. */
  lemma {:induction false} RunLengthStopsAtSeparator(a: string, t: string)
    requires t != [] && !IsWordChar(t[0])
    ensures RunLength(a + t) == RunLength(a)
    decreases |a|
  {
    if a == [] {
      assert a + t == t;
    } else if IsWordChar(a[0]) {
      assert (a + t)[1..] == a[1..] + t;
      RunLengthStopsAtSeparator(a[1..], t);
    }
  }

  /** Tokenising splits at any separator: nothing of `a` and `t` is glued together. */
  lemma {:induction false} TokensSplitAtSeparator(a: string, t: string)
    requires t != [] && !IsWordChar(t[0])
    ensures Tokens(a + t) == Tokens(a) + Tokens(t)
    decreases |a|
  {
    if a == [] {
      assert a + t == t;
    } else if !IsWordChar(a[0]) {
      assert (a + t)[1..] == a[1..] + t;
      TokensSplitAtSeparator(a[1..], t);
    } else {
      var n := RunLength(a);
      RunLengthStopsAtSeparator(a, t);
      assert (a + t)[..n] == a[..n];
      assert (a + t)[n..] == a[n..] + t;
      TokensSplitAtSeparator(a[n..], t);
    }
  }

  /** Punctuation and spaces separate tokens: tokens of `a c b` are those of `a` then `b`. */
  lemma TokensAroundSeparator(a: string, c: char, b: string)
    requires !IsWordChar(c)
    ensures Tokens(a + [c] + b) == Tokens(a) + Tokens(b)
  {
    assert a + [c] + b == a + ([c] + b);
    TokensSplitAtSeparator(a, [c] + b);
    assert ([c] + b)[1..] == b;
  }

  /** A whole word is one token. */
  lemma WordIsOneToken(w: string)
    requires IsWord(w)
    ensures Tokens(w) == [w]
  {
    assert RunLengthOfWord: RunLength(w) == |w| by {
      WordRunLength(w);
    }
    assert w[..|w|] == w;
    assert w[|w|..] == [];
  }

  lemma {:induction false} WordRunLength(w: string)
    requires forall i :: 0 <= i < |w| ==> IsWordChar(w[i])
    ensures RunLength(w) == |w|
    decreases |w|
  {
    if w != [] {
      WordRunLength(w[1..]);
    }
  }

  /** Words joined by a separator tokenise back to the same words. */
  lemma {:induction false} TokensOfJoinedWords(ws: seq<string>, c: char)
    requires !IsWordChar(c)
    requires forall i :: 0 <= i < |ws| ==> IsWord(ws[i])
    ensures Tokens(Join(ws, c)) == ws
  {
    if ws == [] {
    } else if |ws| == 1 {
      WordIsOneToken(ws[0]);
    } else {
      TokensAroundSeparator(ws[0], c, Join(ws[1..], c));
      WordIsOneToken(ws[0]);
      TokensOfJoinedWords(ws[1..], c);
    }
  }

  // ---------------------------------------------------------------- counting

  /** Number of tokens of `ws` that are keywords of `e`. */
  function Occurrences(ws: seq<string>, e: Emotion): (n: nat)
    ensures n <= |ws|
  {
    if ws == [] then 0
    else Occurrences(ws[..|ws| - 1], e) + (if ws[|ws| - 1] in Keywords(e) then 1 else 0)
  }

  lemma {:induction false} OccurrencesConcat(a: seq<string>, b: seq<string>, e: Emotion)
    ensures Occurrences(a + b, e) == Occurrences(a, e) + Occurrences(b, e)
    decreases |b|
  {
    if b == [] {
      assert a + b == a;
    } else {
      assert (a + b)[..|a + b| - 1] == a + b[..|b| - 1];
      OccurrencesConcat(a, b[..|b| - 1], e);
    }
  }

  /** The classifier as a function: category `e` counts the tokens that are keywords of `e`. */
  function Classify(text: string): Counts
  {
    var ws := Tokens(Lower(text));
    Counts(Occurrences(ws, Happy), Occurrences(ws, Calm), Occurrences(ws, Sad), Occurrences(ws, Upset))
  }

  /**
   * `analyze_text`: lower-case, tokenise, start every category at 0, then for each
   * token add one to every category whose keywords contain it.
   */
  method AnalyzeText(text: string) returns (counts: Counts)
    ensures forall e :: counts.Get(e) == Occurrences(Tokens(Lower(text)), e)
    ensures counts == Classify(text)
  {
    var lowered := Lower(text);
    var words := Tokens(lowered);
    counts := Zero;
    for i := 0 to |words|
      invariant forall e :: counts.Get(e) == Occurrences(words[..i], e)
    {
      assert words[..i + 1][..i] == words[..i];
      counts := CountWord(counts, words[i]);
    }
    assert words[..|words|] == words;
    CountsExtensional(counts, Classify(text));
  }

  /** The inner loop of `analyze_text`: the categories in table order, each bumped by
      one when `word` is among its keywords. */
  method CountWord(counts: Counts, word: string) returns (r: Counts)
    ensures forall e :: r.Get(e) == counts.Get(e) + (if word in Keywords(e) then 1 else 0)
  {
    r := counts;
    for j := 0 to |Order|
      invariant forall e :: Rank(e) < j ==> r.Get(e) == counts.Get(e) + (if word in Keywords(e) then 1 else 0)
      invariant forall e :: j <= Rank(e) ==> r.Get(e) == counts.Get(e)
    {
      var emotion := Order[j];
      assert Rank(emotion) == j;
      if word in Keywords(emotion) {
        r := r.Bump(emotion, 1);
      }
    }
  }

  // ---------------------------------------------------------------- properties

  /** Every category starts at zero: empty text yields the all-zero vector. */
  lemma ClassifyEmpty()
    ensures Classify("") == Zero
  {
    assert Lower("") == "";
  }

  lemma {:induction false} NoKeywordsNoOccurrences(ws: seq<string>, e: Emotion)
    requires forall i :: 0 <= i < |ws| ==> ws[i] !in Keywords(e)
    ensures Occurrences(ws, e) == 0
  {
    if ws != [] {
      NoKeywordsNoOccurrences(ws[..|ws| - 1], e);
    }
  }

  /** Text without a single keyword token yields the all-zero vector. */
  lemma ClassifyWithoutKeywords(text: string)
    requires forall i, e :: 0 <= i < |Tokens(Lower(text))| ==> Tokens(Lower(text))[i] !in Keywords(e)
    ensures Classify(text) == Zero
  {
    var ws := Tokens(Lower(text));
    NoKeywordsNoOccurrences(ws, Happy);
    NoKeywordsNoOccurrences(ws, Calm);
    NoKeywordsNoOccurrences(ws, Sad);
    NoKeywordsNoOccurrences(ws, Upset);
  }

  /** One token adds to at most one category. */
  lemma OneCategoryPerToken(w: string)
    ensures (if w in Keywords(Happy) then 1 else 0) + (if w in Keywords(Calm) then 1 else 0)
          + (if w in Keywords(Sad) then 1 else 0) + (if w in Keywords(Upset) then 1 else 0) <= 1
  {
  }

  lemma {:induction false} OccurrencesSumBound(ws: seq<string>)
    ensures Occurrences(ws, Happy) + Occurrences(ws, Calm) + Occurrences(ws, Sad) + Occurrences(ws, Upset) <= |ws|
  {
    if ws != [] {
      OccurrencesSumBound(ws[..|ws| - 1]);
      OneCategoryPerToken(ws[|ws| - 1]);
    }
  }

  /** The four counts together never exceed the number of tokens. */
  lemma ClassifySumAtMostTokens(text: string)
    ensures Classify(text).Sum() <= |Tokens(Lower(text))|
  {
    OccurrencesSumBound(Tokens(Lower(text)));
  }

  /** Matching ignores case: text and its lower-cased form classify alike. */
  lemma ClassifyIgnoresCase(text: string)
    ensures Classify(Lower(text)) == Classify(text)
  {
    LowerIdempotent(text);
  }

  /** Each occurrence counts: the counts of two texts joined by a separator add up. */
  lemma ClassifyAcrossSeparator(a: string, c: char, b: string)
    requires !IsWordChar(c)
    ensures Classify(a + [c] + b) == Classify(a).Plus(Classify(b))
  {
    LowerConcat(a + [c], b);
    LowerConcat(a, [c]);
    assert Lower([c]) == [ToLower(c)];
    TokensAroundSeparator(Lower(a), ToLower(c), Lower(b));
    var ta, tb := Tokens(Lower(a)), Tokens(Lower(b));
    OccurrencesConcat(ta, tb, Happy);
    OccurrencesConcat(ta, tb, Calm);
    OccurrencesConcat(ta, tb, Sad);
    OccurrencesConcat(ta, tb, Upset);
  }

  /** Lower-casing keeps a word a word. */
  lemma LowerKeepsWord(w: string)
    requires IsWord(w)
    ensures IsWord(Lower(w))
  {
  }

  /** One for each category whose keyword list holds `w`, zero elsewhere. */
  function KeywordHits(w: string): Counts
  {
    Counts(if w in Keywords(Happy) then 1 else 0, if w in Keywords(Calm) then 1 else 0,
           if w in Keywords(Sad) then 1 else 0, if w in Keywords(Upset) then 1 else 0)
  }

  /** A trailing separator adds nothing. */
  lemma ClassifyTrailingSeparator(a: string, c: char)
    requires !IsWordChar(c)
    ensures Classify(a + [c]) == Classify(a)
  {
    LowerConcat(a, [c]);
    assert Lower([c]) == [ToLower(c)];
    TokensSplitAtSeparator(Lower(a), [ToLower(c)]);
    assert [ToLower(c)][1..] == [];
    assert Tokens(Lower(a) + [ToLower(c)]) == Tokens(Lower(a)) + [];
    assert Tokens(Lower(a)) + [] == Tokens(Lower(a));
  }

  /** Classifying a single word: it counts for the category whose list holds
      it lower-cased, and nowhere else. */
  lemma ClassifyWord(w: string)
    requires IsWord(w)
    ensures Classify(w) == KeywordHits(Lower(w))
  {
    LowerKeepsWord(w);
    WordIsOneToken(Lower(w));
    assert [Lower(w)][..0] == [];
  }

  /** The classifications of the words taken one at a time, summed. */
  function ClassifyEach(ws: seq<string>): Counts
  {
    if ws == [] then Zero else Classify(ws[0]).Plus(ClassifyEach(ws[1..]))
  }

  /** Classifying words joined by a separator is classifying each word and adding up. */
  lemma {:induction false} ClassifyJoinedWords(ws: seq<string>, c: char)
    requires !IsWordChar(c) && |ws| > 0
    ensures Classify(Join(ws, c)) == ClassifyEach(ws)
  {
    if |ws| == 1 {
      assert Join(ws, c) == ws[0];
      assert ClassifyEach(ws) == Classify(ws[0]).Plus(ClassifyEach([]));
    } else {
      var rest := Join(ws[1..], c);
      assert Join(ws, c) == ws[0] + [c] + rest;
      ClassifyAcrossSeparator(ws[0], c, rest);
      ClassifyJoinedWords(ws[1..], c);
    }
  }
}
