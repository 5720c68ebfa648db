/**
 * The caption typist: each typing step extends the caption to the next
 * prefix of the current sentence (`sentence.substring(0, caption.length + 1)`).
 */
module Typist {

  function Min(a: nat, b: nat): nat { if a <= b then a else b }

  /**
   * One typing step. `substring` clamps its end at the sentence length, so
   * the caption grows by one character until it is the whole sentence.
   */
  function TypedCaption(sentence: string, caption: string): (r: string)
    ensures r <= sentence
    ensures |r| == Min(|caption| + 1, |sentence|)
    ensures caption <= sentence ==> caption <= r
  {
    sentence[..Min(|caption| + 1, |sentence|)]
  }

  /** A full caption stays as it is. */
  lemma TypingStopsAtSentence(sentence: string)
    ensures TypedCaption(sentence, sentence) == sentence
  {
  }

  /** The caption after `n` typing steps from the empty caption. */
  function Typed(sentence: string, n: nat): string
    decreases n
  {
    if n == 0 then [] else TypedCaption(sentence, Typed(sentence, n - 1))
  }

  /** After `n` steps the caption shows the first `n` characters of the sentence (all of it once `n` reaches its length). */
  lemma {:induction false} TypingRevealsPrefix(sentence: string, n: nat)
    ensures Typed(sentence, n) == sentence[..Min(n, |sentence|)]
    decreases n
  {
    if n > 0 {
      TypingRevealsPrefix(sentence, n - 1);
    }
  }
}
