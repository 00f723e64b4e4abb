/**
 * The letter pool offered to the learner: the designer's `letrasDisponibles`
 * padded so that every letter of the requirement map is on offer at least as
 * often as the map asks (`generateAvailableLetters`).
 */
module LetterPool {
  import opened Letters
  import opened Frequency

  /** Appends the copies of c that pool lacks to hold `need` of them. */
  function TopUp(pool: seq<string>, c: string, need: nat): (r: seq<string>)
  {
    var have := multiset(pool)[c];
    if have < need then pool + Repeat(c, need - have) else pool
  }

  /** Tops up pool for each of keys in turn, as the walk over `Object.keys(frequency)` does. */
  function PadFrom(pool: seq<string>, keys: seq<string>, f: FreqMap): (r: seq<string>)
    decreases |keys|
  {
    if keys == [] then pool else PadFrom(TopUp(pool, keys[0], Lookup(f, keys[0])), keys[1..], f)
  }

  /** The pool built from the designer list and the requirement map. */
  function PaddedPool(designer: seq<string>, f: FreqMap): (pool: seq<string>)
  {
    PadFrom(designer, f.keys, f)
  }

  /** `generateAvailableLetters`: copies the designer list, then appends each deficit. */
  method GenerateAvailableLetters(designer: seq<string>, f: FreqMap) returns (pool: seq<string>)
    ensures pool == PaddedPool(designer, f)
    ensures |pool| >= |designer| && pool[..|designer|] == designer
    ensures forall j :: |designer| <= j < |pool| ==> pool[j] in f.keys
  {
    var updatedLetters := designer;
    assert f.keys[0..] == f.keys;
    for i := 0 to |f.keys|
      invariant PadFrom(updatedLetters, f.keys[i..], f) == PaddedPool(designer, f)
    {
      var letter := f.keys[i];
      var occurrencesInSentence := Lookup(f, letter);
      var availableOccurrences := multiset(updatedLetters)[letter];
      if availableOccurrences < occurrencesInSentence {
        updatedLetters := updatedLetters + Repeat(letter, occurrencesInSentence - availableOccurrences);
      }
      assert f.keys[i..][1..] == f.keys[i + 1..];
    }
    pool := updatedLetters;
    PadFromPrefix(designer, f.keys, f);
  }

  /** Padding only appends: the starting pool is an untouched prefix. */
  lemma {:induction false} PadFromPrefix(pool: seq<string>, keys: seq<string>, f: FreqMap)
    ensures |PadFrom(pool, keys, f)| >= |pool|
    ensures PadFrom(pool, keys, f)[..|pool|] == pool
    ensures forall j :: |pool| <= j < |PadFrom(pool, keys, f)| ==> PadFrom(pool, keys, f)[j] in keys
    decreases |keys|
  {
    if keys != [] {
      var next := TopUp(pool, keys[0], Lookup(f, keys[0]));
      PadFromPrefix(next, keys[1..], f);
      assert next[..|pool|] == pool;
      var r := PadFrom(pool, keys, f);
      assert r[..|next|][..|pool|] == r[..|pool|];
      forall j | |pool| <= j < |r|
        ensures r[j] in keys
      {
        if j < |next| {
          assert r[j] == next[j];
        } else {
          assert r[j] in keys[1..];
        }
      }
    }
  }

  /**
   * Over a duplicate-free key list, each listed letter ends with the larger of
   * what the pool had and what the map asks; other letters keep their count.
   */
  lemma {:induction false} PadFromCount(pool: seq<string>, keys: seq<string>, f: FreqMap)
    requires forall i, j :: 0 <= i < j < |keys| ==> keys[i] != keys[j]
    ensures forall c :: multiset(PadFrom(pool, keys, f))[c] ==
              if c in keys then Max(multiset(pool)[c], Lookup(f, c)) else multiset(pool)[c]
    decreases |keys|
  {
    if keys != [] {
      var k := keys[0];
      var next := TopUp(pool, k, Lookup(f, k));
      PadFromCount(next, keys[1..], f);
      if multiset(pool)[k] < Lookup(f, k) {
        RepeatCount(k, Lookup(f, k) - multiset(pool)[k]);
      }
      assert k !in keys[1..] by {
        forall j | 0 <= j < |keys[1..]| ensures keys[1..][j] != k {
          assert keys[1..][j] == keys[j + 1];
        }
      }
      assert forall c :: c in keys <==> c == k || c in keys[1..] by {
        assert keys == [k] + keys[1..];
      }
    }
  }

  function Max(a: nat, b: nat): (m: nat) { if a < b then b else a }

  /**
   * For a lesson whose requirement list is `letters`, the pool begins with the
   * designer list unchanged, appends only required letters, and holds each
   * letter max(designer count, required count) times.
   */
  lemma PoolForLesson(designer: seq<string>, letters: seq<string>)
    ensures var pool := PaddedPool(designer, LetterFrequency(letters));
      && |pool| >= |designer| && pool[..|designer|] == designer
      && (forall j :: |designer| <= j < |pool| ==> pool[j] in letters)
      && (forall c :: multiset(pool)[c] == Max(multiset(designer)[c], multiset(letters)[c]))
  {
    var f := LetterFrequency(letters);
    FrequencyWellFormed(letters);
    FrequencyCounts(letters);
    PadFromPrefix(designer, f.keys, f);
    PadFromCount(designer, f.keys, f);
  }

  /** Pool sufficiency: every required letter is on offer at least as often as required. */
  lemma PoolSufficient(designer: seq<string>, letters: seq<string>)
    ensures forall c :: multiset(PaddedPool(designer, LetterFrequency(letters)))[c] >= multiset(letters)[c]
  {
    PoolForLesson(designer, letters);
  }
}
