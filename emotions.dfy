/**
 * The four emotion categories and the per-note count vector.
 *
 * Every dictionary the system builds over emotions ({"happy": .., "calm": ..,
 * "sad": .., "upset": ..}) has the same four keys, inserted in the same order;
 * `Counts` is that dictionary with the keys fixed by construction.
 */
module Emotions {

  datatype Emotion = Happy | Calm | Sad | Upset

  /** Insertion order of the keys, which is also Python's iteration order. */
  const Order: seq<Emotion> := [Happy, Calm, Sad, Upset]

  /** Position of a category in `Order`. */
  function Rank(e: Emotion): nat
  {
    match e
    case Happy => 0
    case Calm => 1
    case Sad => 2
    case Upset => 3
  }

  /** The dictionary key (and display label) of a category. */
  function Name(e: Emotion): string
  {
    match e
    case Happy => "happy"
    case Calm => "calm"
    case Sad => "sad"
    case Upset => "upset"
  }

  datatype Counts = Counts(happy: nat, calm: nat, sad: nat, upset: nat)
  {
    function Get(e: Emotion): nat
    {
      match e
      case Happy => happy
      case Calm => calm
      case Sad => sad
      case Upset => upset
    }

    /** `counts[e] += n`. */
    function Bump(e: Emotion, n: nat): (r: Counts)
      ensures r.Get(e) == Get(e) + n
      ensures forall x :: x != e ==> r.Get(x) == Get(x)
    {
      match e
      case Happy => this.(happy := happy + n)
      case Calm => this.(calm := calm + n)
      case Sad => this.(sad := sad + n)
      case Upset => this.(upset := upset + n)
    }

    /** Componentwise sum: the four `+=` lines applied with another vector. */
    function Plus(other: Counts): (r: Counts)
      ensures forall x :: r.Get(x) == Get(x) + other.Get(x)
    {
      Counts(happy + other.happy, calm + other.calm, sad + other.sad, upset + other.upset)
    }

    /** Sum of the four counts. */
    function Sum(): nat
    {
      happy + calm + sad + upset
    }
  }

  /** The freshly initialised dictionary: every key present with count 0. */
  const Zero: Counts := Counts(0, 0, 0, 0)

  /** A count vector is determined by its four counts. */
  lemma CountsExtensional(a: Counts, b: Counts)
    requires forall e :: a.Get(e) == b.Get(e)
    ensures a == b
  {
    assert a.Get(Happy) == b.Get(Happy) && a.Get(Calm) == b.Get(Calm);
    assert a.Get(Sad) == b.Get(Sad) && a.Get(Upset) == b.Get(Upset);
  }

  /** `Zero` is the identity of `Plus`. */
  lemma PlusZero(c: Counts)
    ensures c.Plus(Zero) == c && Zero.Plus(c) == c
  {
  }

  lemma PlusAssociative(a: Counts, b: Counts, c: Counts)
    ensures a.Plus(b).Plus(c) == a.Plus(b.Plus(c))
  {
  }

  lemma ZeroHasAllKeysAtZero()
    ensures forall e :: Zero.Get(e) == 0
  {
  }

  /** One step of Python's `max(d, key=d.get)`: the candidate `e` replaces the best
      so far only when its count is strictly greater. */
  function MaxStep(c: Counts, best: Emotion, e: Emotion): Emotion
  {
    if c.Get(e) > c.Get(best) then e else best
  }

  /**
   * The prevalent emotion: `max(counts, key=counts.get)` scanning happy, calm,
   * sad, upset. It holds the largest count, and every category before it in
   * `Order` holds a strictly smaller one, so ties go to the earliest category.
   */
  function Prevalent(c: Counts): (p: Emotion)
    ensures forall x :: c.Get(x) <= c.Get(p)
    ensures forall x :: Rank(x) < Rank(p) ==> c.Get(x) < c.Get(p)
  {
    MaxStep(c, MaxStep(c, MaxStep(c, Happy, Calm), Sad), Upset)
  }

  /** The two properties in `Prevalent`'s contract pin the result down. */
  lemma PrevalentIsFirstMaximum(c: Counts, p: Emotion)
    requires forall x :: c.Get(x) <= c.Get(p)
    requires forall x :: Rank(x) < Rank(p) ==> c.Get(x) < c.Get(p)
    ensures p == Prevalent(c)
  {
  }

  /** Ties resolve to the first category of the tie: {happy: 2, calm: 2} gives happy. */
  lemma PrevalentTieGoesToEarlier(c: Counts, a: Emotion, b: Emotion)
    requires Rank(a) < Rank(b) && c.Get(a) == c.Get(b)
    ensures Prevalent(c) != b
  {
  }

  lemma PrevalentOfZeroIsHappy()
    ensures Prevalent(Zero) == Happy
  {
  }

  lemma PrevalentExample()
    ensures Prevalent(Counts(2, 2, 0, 0)) == Happy
    ensures Prevalent(Counts(0, 1, 3, 3)) == Sad
  {
  }
}
