/**
 * Matching a chosen letter against the blanks of the sentence
 * (`getAllPlaceholderIndices`). The answer key is the lesson's `audio`
 * string, read character by character in parallel with `oracion`.
 */
module Blanks {

  /** The blank marker of a sentence. */
  const Placeholder: char := '_'

  /**
   * Position i is a blank whose answer-key character is the chosen letter.
   * Past the end of the answer key the key reads as undefined, which equals
   * no letter.
   */
  predicate Qualifies(oracion: string, audio: string, letter: string, i: nat)
  {
    i < |oracion| && oracion[i] == Placeholder && i < |audio| && letter == [audio[i]]
  }

  /** The qualifying positions below n, in the order the scan visits them. */
  function IndicesBelow(oracion: string, audio: string, letter: string, n: nat): (r: seq<nat>)
    requires n <= |oracion|
  {
    if n == 0 then []
    else IndicesBelow(oracion, audio, letter, n - 1) + (if Qualifies(oracion, audio, letter, n - 1) then [n - 1] else [])
  }

  /** All qualifying positions of the sentence. */
  function PlaceholderIndices(oracion: string, audio: string, letter: string): (r: seq<nat>)
  {
    IndicesBelow(oracion, audio, letter, |oracion|)
  }

  /** `getAllPlaceholderIndices`: scans the sentence and collects the qualifying positions. */
  method GetAllPlaceholderIndices(oracion: string, audio: string, letter: string) returns (indices: seq<nat>)
    ensures indices == PlaceholderIndices(oracion, audio, letter)
    ensures forall j, k :: 0 <= j < k < |indices| ==> indices[j] < indices[k]
    ensures forall i: nat :: i in indices <==> Qualifies(oracion, audio, letter, i)
  {
    indices := [];
    for i := 0 to |oracion|
      invariant indices == IndicesBelow(oracion, audio, letter, i)
    {
      if oracion[i] == Placeholder && i < |audio| && [audio[i]] == letter {
        indices := indices + [i];
      }
    }
    PlaceholderIndicesSpec(oracion, audio, letter);
  }

  /** The positions below n are strictly ascending and are exactly the qualifying ones. */
  lemma {:induction false} IndicesBelowSpec(oracion: string, audio: string, letter: string, n: nat)
    requires n <= |oracion|
    ensures var r := IndicesBelow(oracion, audio, letter, n);
      && (forall j, k :: 0 <= j < k < |r| ==> r[j] < r[k])
      && (forall i: nat :: i in r <==> i < n && Qualifies(oracion, audio, letter, i))
  {
    if n > 0 {
      IndicesBelowSpec(oracion, audio, letter, n - 1);
      var prev := IndicesBelow(oracion, audio, letter, n - 1);
      assert forall j :: 0 <= j < |prev| ==> prev[j] < n - 1 by {
        forall j | 0 <= j < |prev| ensures prev[j] < n - 1 {
          assert prev[j] in prev;
        }
      }
    }
  }

  /**
   * The matched positions are strictly ascending and are exactly the blanks
   * whose answer-key character is the letter; none qualifying gives [].
   */
  lemma PlaceholderIndicesSpec(oracion: string, audio: string, letter: string)
    ensures var r := PlaceholderIndices(oracion, audio, letter);
      && (forall j, k :: 0 <= j < k < |r| ==> r[j] < r[k])
      && (forall i: nat :: i in r <==> Qualifies(oracion, audio, letter, i))
      && (r == [] <==> forall i: nat :: !Qualifies(oracion, audio, letter, i))
  {
    IndicesBelowSpec(oracion, audio, letter, |oracion|);
    var r := PlaceholderIndices(oracion, audio, letter);
    if r != [] {
      assert r[0] in r;
    }
  }
}
