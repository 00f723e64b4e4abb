/**
 * The requirement map built from a lesson's `letrasCorrectas`: a JavaScript
 * object used as a counter. Its own keys are kept in insertion order, because
 * the letter pool is padded by walking `Object.keys` in that order.
 */
module Frequency {

  /** A counter object: its keys in insertion order and the value stored under each. */
  datatype FreqMap = FreqMap(keys: seq<string>, count: map<string, nat>)

  /** Reading a counter entry with 0 as the default: the stored count, or 0 for a letter that is not a key. */
  function Lookup(f: FreqMap, x: string): (n: nat)
  {
    if x in f.count then f.count[x] else 0
  }

  /** One step of the counting loop: adds one to x's count; x becomes the last key if it was absent. */
  function Bump(f: FreqMap, x: string): (g: FreqMap)
  {
    FreqMap(if x in f.count then f.keys else f.keys + [x], f.count[x := Lookup(f, x) + 1])
  }

  /** The counter after the loop has visited every element of letters. */
  function LetterFrequency(letters: seq<string>): (f: FreqMap)
    decreases |letters|
  {
    if letters == [] then FreqMap([], map[])
    else Bump(LetterFrequency(letters[..|letters| - 1]), letters[|letters| - 1])
  }

  /** The key list has no repeats and lists exactly the keys of the map. */
  ghost predicate WellFormed(f: FreqMap)
  {
    && (forall i, j :: 0 <= i < j < |f.keys| ==> f.keys[i] != f.keys[j])
    && (forall x :: x in f.count <==> x in f.keys)
  }

  /** Sum of the counts stored under the given keys. */
  function SumCounts(f: FreqMap, keys: seq<string>): (total: nat)
    decreases |keys|
  {
    if keys == [] then 0 else SumCounts(f, keys[..|keys| - 1]) + Lookup(f, keys[|keys| - 1])
  }

  /** `calculateLetterFrequency`: counts every letter of the list in one pass. */
  method CalculateLetterFrequency(letters: seq<string>) returns (f: FreqMap)
    ensures f == LetterFrequency(letters)
    ensures forall x :: Lookup(f, x) == multiset(letters)[x]
  {
    var keys: seq<string> := [];
    var letterMap: map<string, nat> := map[];
    for i := 0 to |letters|
      invariant FreqMap(keys, letterMap) == LetterFrequency(letters[..i])
    {
      var letter := letters[i];
      var previous := if letter in letterMap then letterMap[letter] else 0;
      if letter !in letterMap {
        keys := keys + [letter];
      }
      letterMap := letterMap[letter := previous + 1];
      assert letters[..i + 1][..i] == letters[..i];
    }
    assert letters[..|letters|] == letters;
    f := FreqMap(keys, letterMap);
    FrequencyCounts(letters);
  }

  /** The counter's key list is duplicate-free and matches its map. */
  lemma {:induction false} FrequencyWellFormed(letters: seq<string>)
    ensures WellFormed(LetterFrequency(letters))
  {
    if letters != [] {
      FrequencyWellFormed(letters[..|letters| - 1]);
    }
  }

  /**
   * Every letter of the list is a key whose value is its number of
   * occurrences, and no other letter is a key.
   */
  lemma {:induction false} FrequencyCounts(letters: seq<string>)
    ensures forall x :: x in LetterFrequency(letters).count <==> x in letters
    ensures forall x :: Lookup(LetterFrequency(letters), x) == multiset(letters)[x]
  {
    if letters != [] {
      var init := letters[..|letters| - 1];
      FrequencyCounts(init);
      assert letters == init + [letters[|letters| - 1]];
    }
  }

  /**
   * Changing the count of one letter x changes the sum over a duplicate-free
   * key list by exactly that change, if x is listed, and not at all otherwise.
   */
  lemma {:induction false} SumCountsChange(f: FreqMap, g: FreqMap, keys: seq<string>, x: string)
    requires forall i, j :: 0 <= i < j < |keys| ==> keys[i] != keys[j]
    requires forall y :: y != x ==> Lookup(f, y) == Lookup(g, y)
    ensures SumCounts(g, keys) == SumCounts(f, keys) + (if x in keys then Lookup(g, x) - Lookup(f, x) else 0)
  {
    if keys != [] {
      var init := keys[..|keys| - 1];
      SumCountsChange(f, g, init, x);
      assert keys == init + [keys[|keys| - 1]];
      assert x in keys <==> x in init || x == keys[|keys| - 1];
      if x == keys[|keys| - 1] {
        assert x !in init;
      }
    }
  }

  /** The counts add up to the length of the list. */
  lemma {:induction false} FrequencySum(letters: seq<string>)
    ensures SumCounts(LetterFrequency(letters), LetterFrequency(letters).keys) == |letters|
  {
    if letters != [] {
      var init := letters[..|letters| - 1];
      var x := letters[|letters| - 1];
      var f := LetterFrequency(init);
      var g := Bump(f, x);
      FrequencySum(init);
      FrequencyWellFormed(init);
      SumCountsChange(f, g, f.keys, x);
      if x !in f.count {
        assert (f.keys + [x])[..|f.keys|] == f.keys;
      }
    }
  }
}
