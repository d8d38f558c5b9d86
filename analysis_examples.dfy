/**
 * Worked examples of the classifier on concrete text. Each lemma names its
 * text, or the words of its text, through parameters required to equal the
 * literals.
 */
module AnalysisExamples {
  import opened Emotions
  import opened Analysis
  import opened Sequences

  /** The lower-cased forms of the words used below. */
  lemma ExampleLowerings()
    ensures Lower("Happy") == "happy" && Lower("HAPPY") == "happy" && Lower("I") == "i"
    ensures Lower("happy") == "happy" && Lower("calm") == "calm" && Lower("am") == "am" && Lower("and") == "and"
  {
  }

  /** The keyword hits of the lower-cased words used below. */
  lemma ExampleHits()
    ensures KeywordHits("happy") == Counts(1, 0, 0, 0) && KeywordHits("calm") == Counts(0, 1, 0, 0)
  {
  }

  lemma ExampleMisses()
    ensures KeywordHits("i") == Zero && KeywordHits("am") == Zero && KeywordHits("and") == Zero
  {
  }

  lemma ClassifyUnhappy(t: string)
    requires t == "unhappy"
    ensures Classify(t) == Counts(0, 0, 1, 0)
  {
    assert Lower(t) == "unhappy";
    assert KeywordHits("unhappy") == Counts(0, 0, 1, 0);
    ClassifyWord(t);
  }

  lemma ClassifyHappiness(t: string)
    requires t == "happiness"
    ensures Classify(t) == Zero
  {
    assert Lower(t) == "happiness";
    assert KeywordHits("happiness") == Zero;
    ClassifyWord(t);
  }

  /** Single words: which category each one counts for. */
  lemma ExampleWord(w: string, hits: Counts)
    requires || ((w == "I" || w == "am" || w == "and") && hits == Zero)
             || ((w == "happy" || w == "Happy" || w == "HAPPY") && hits == Counts(1, 0, 0, 0))
             || (w == "calm" && hits == Counts(0, 1, 0, 0))
    ensures Classify(w) == hits
  {
    ExampleLowerings();
    ExampleHits();
    ExampleMisses();
    ClassifyWord(w);
  }

  /** Matching is whole-token: "unhappy" is a sad keyword, and "happiness"
      (which contains "happ") is no keyword at all. */
  lemma ClassifyWholeTokens(t1: string, t2: string)
    requires t1 == "unhappy" && t2 == "happiness"
    ensures Classify(t1) == Counts(0, 0, 1, 0)
    ensures Classify(t2) == Zero
  {
    ClassifyUnhappy(t1);
    ClassifyHappiness(t2);
  }

  /** Punctuation ends a token: "happy!" and "calm." are each counted. */
  lemma ClassifyWithPunctuation(t1: string, t2: string)
    requires t1 == "happy!" && t2 == "calm."
    ensures Classify(t1) == Counts(1, 0, 0, 0)
    ensures Classify(t2) == Counts(0, 1, 0, 0)
  {
    assert t1 == t1[..5] + ['!'];
    ClassifyPunctuated(t1[..5], '!', Counts(1, 0, 0, 0));
    assert t2 == t2[..4] + ['.'];
    ClassifyPunctuated(t2[..4], '.', Counts(0, 1, 0, 0));
  }

  lemma ClassifyPunctuated(w: string, c: char, hits: Counts)
    requires (w == "happy" && hits == Counts(1, 0, 0, 0)) || (w == "calm" && hits == Counts(0, 1, 0, 0))
    requires c == '!' || c == '.'
    ensures Classify(w + [c]) == hits
  {
    ExampleWord(w, hits);
    ClassifyTrailingSeparator(w, c);
  }

  /** The words of "I am happy and calm" joined by spaces give back that text. */
  lemma SentenceWords(ws: seq<string>)
    requires |ws| == 5 && ws[0] == "I" && ws[1] == "am" && ws[2] == "happy" && ws[3] == "and" && ws[4] == "calm"
    ensures Join(ws, ' ') == "I am happy and calm"
  {
    SentenceTail(ws[2..]);
    assert Join(ws[1..], ' ') == "am happy and calm";
  }

  lemma SentenceTail(ws: seq<string>)
    requires |ws| == 3 && ws[0] == "happy" && ws[1] == "and" && ws[2] == "calm"
    ensures Join(ws, ' ') == "happy and calm"
  {
    assert Join(ws[2..], ' ') == "calm";
    assert Join(ws[1..], ' ') == "and calm";
  }

  /** "I am happy and calm" counts one happy and one calm. */
  lemma ClassifySentence(ws: seq<string>)
    requires |ws| == 5 && ws[0] == "I" && ws[1] == "am" && ws[2] == "happy" && ws[3] == "and" && ws[4] == "calm"
    ensures Classify(Join(ws, ' ')) == Counts(1, 1, 0, 0)
  {
    SentenceWordByWord(ws);
    ClassifyJoinedWords(ws, ' ');
  }

  lemma SentenceWordByWord(ws: seq<string>)
    requires |ws| == 5 && ws[0] == "I" && ws[1] == "am" && ws[2] == "happy" && ws[3] == "and" && ws[4] == "calm"
    ensures ClassifyEach(ws) == Counts(1, 1, 0, 0)
  {
    ExampleWord(ws[0], Zero);
    ExampleWord(ws[1], Zero);
    TailWordByWord(ws[2..]);
    assert ws[1..][1..] == ws[2..];
    PlusZero(Counts(1, 1, 0, 0));
    assert ClassifyEach(ws[1..]) == Counts(1, 1, 0, 0);
  }

  lemma TailWordByWord(ws: seq<string>)
    requires |ws| == 3 && ws[0] == "happy" && ws[1] == "and" && ws[2] == "calm"
    ensures ClassifyEach(ws) == Counts(1, 1, 0, 0)
  {
    ExampleWord(ws[0], Counts(1, 0, 0, 0));
    ExampleWord(ws[1], Zero);
    ExampleWord(ws[2], Counts(0, 1, 0, 0));
    assert ClassifyEach(ws[3..]) == Zero;
    assert ClassifyEach(ws[2..]) == Counts(0, 1, 0, 0);
    assert ClassifyEach(ws[1..]) == Counts(0, 1, 0, 0);
  }

  /** "Happy HAPPY happy!" counts three happy: case is ignored and every occurrence counts. */
  lemma ClassifyRepeatedMixedCase(ws: seq<string>)
    requires |ws| == 3 && ws[0] == "Happy" && ws[1] == "HAPPY" && ws[2] == "happy!"
    ensures Classify(Join(ws, ' ')) == Counts(3, 0, 0, 0)
  {
    ExampleWord(ws[0], Counts(1, 0, 0, 0));
    ExampleWord(ws[1], Counts(1, 0, 0, 0));
    ClassifyWithPunctuation(ws[2], "calm.");
    assert ClassifyEach(ws[3..]) == Zero;
    assert ClassifyEach(ws[2..]) == Counts(1, 0, 0, 0);
    assert ClassifyEach(ws[1..]) == Counts(2, 0, 0, 0);
    ClassifyJoinedWords(ws, ' ');
  }

  /** The classifier on the literal sentence: one happy and one calm. */
  lemma ClassifySentenceText()
    ensures Classify("I am happy and calm") == Counts(1, 1, 0, 0)
  {
    var ws := ["I", "am", "happy", "and", "calm"];
    SentenceWords(ws);
    ClassifySentence(ws);
  }

  /** The classifier on the literal repeated, mixed-case text: three happy. */
  lemma ClassifyRepeatedText()
    ensures Classify("Happy HAPPY happy!") == Counts(3, 0, 0, 0)
  {
    var ws := ["Happy", "HAPPY", "happy!"];
    assert Join(ws, ' ') == "Happy HAPPY happy!" by {
      assert Join(ws[2..], ' ') == "happy!";
      assert Join(ws[1..], ' ') == "HAPPY happy!";
    }
    ClassifyRepeatedMixedCase(ws);
  }
}
