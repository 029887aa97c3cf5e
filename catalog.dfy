/**
 * The word catalog: the list of word records the game teaches, fixed for the
 * whole session, and the constants derived from it.  The catalog's words are
 * assumed distinct (the word is the record's key); reading it from the JSON
 * file is not part of this model.
 */
module Catalog {
  import opened Common

  /** One record of the catalog; a missing translation is the empty string. */
  datatype WordItem = WordItem(word: string, image: string, example: Option<string>, translation: string)

  const WORDS_PER_ROUND: nat := 3
  const DAILY_GOAL: nat := 10

  /** The words of the catalog, in catalog order. */
  function Words(c: seq<WordItem>): seq<string>
  {
    seq(|c|, i requires 0 <= i < |c| => c[i].word)
  }

  /** Catalogs the game can run on: no word occurs twice. */
  predicate WellFormed(c: seq<WordItem>)
  {
    NoDup(Words(c))
  }

  /** `max(1, TOTAL_WORDS // WORDS_PER_ROUND)`: the number of quiz rounds. */
  function TotalRounds(c: seq<WordItem>): (n: nat)
    ensures n >= 1
    ensures |c| >= WORDS_PER_ROUND ==> n * WORDS_PER_ROUND <= |c| < (n + 1) * WORDS_PER_ROUND
    ensures |c| < WORDS_PER_ROUND ==> n == 1
  {
    Max(1, |c| / WORDS_PER_ROUND)
  }

  /** The distractor pool of a quiz question: every catalog word except the correct one, in catalog order. */
  function OtherWords(c: seq<WordItem>, correct: string): (r: seq<string>)
    ensures forall w :: w in r <==> w in Words(c) && w != correct
    ensures |r| <= |c|
  {
    if c == [] then []
    else
      assert Words(c) == [c[0].word] + Words(c[1..]);
      (if c[0].word == correct then [] else [c[0].word]) + OtherWords(c[1..], correct)
  }

  /** When the correct word is not in the catalog the pool is the whole catalog. */
  lemma {:induction false} OtherWordsOfAbsent(c: seq<WordItem>, correct: string)
    requires correct !in Words(c)
    ensures OtherWords(c, correct) == Words(c)
  {
    if c != [] {
      assert Words(c) == [c[0].word] + Words(c[1..]);
      OtherWordsOfAbsent(c[1..], correct);
    }
  }

  /**
   * In a well-formed catalog that holds the correct word, the pool has exactly
   * one word fewer than the catalog and no duplicates.
   */
  lemma {:induction false} OtherWordsExact(c: seq<WordItem>, correct: string)
    requires WellFormed(c) && correct in Words(c)
    ensures |OtherWords(c, correct)| == |c| - 1
    ensures NoDup(OtherWords(c, correct))
  {
    assert Words(c) == [c[0].word] + Words(c[1..]);
    var rest := OtherWords(c[1..], correct);
    assert NoDup(Words(c[1..])) by {
      forall i, j | 0 <= i < j < |c[1..]| ensures Words(c[1..])[i] != Words(c[1..])[j] {
        assert Words(c)[i + 1] != Words(c)[j + 1];
      }
    }
    assert c[0].word !in Words(c[1..]) by {
      forall i | 0 <= i < |c[1..]| ensures Words(c[1..])[i] != c[0].word {
        assert Words(c)[0] != Words(c)[i + 1];
      }
    }
    if c[0].word == correct {
      OtherWordsOfAbsent(c[1..], correct);
    } else {
      OtherWordsExact(c[1..], correct);
      assert c[0].word !in rest;
      assert OtherWords(c, correct) == [c[0].word] + rest;
    }
  }
}
