/**
 * The fill-in-the-blank exercise screen as a state machine: the current
 * lesson index, the placed letters (one slot per sentence position), the
 * letter pool and the requirement map, with the handlers that replace them.
 */
module Session {
  import opened Letters
  import opened Frequency
  import opened LetterPool
  import opened Blanks
  import opened Sentence
  import opened Lessons

  /** Writes letter into every one of the given positions, in order. */
  function PlaceAll(slots: seq<string>, indices: seq<nat>, letter: string): (r: seq<string>)
    decreases |indices|
  {
    if indices == [] then slots
    else SetSlot(PlaceAll(slots, indices[..|indices| - 1], letter), indices[|indices| - 1], letter)
  }

  /** The `forEach` of `handleLetterSelect` over a copy of the slots. */
  method PlaceLetter(slots: seq<string>, indices: seq<nat>, letter: string) returns (updated: seq<string>)
    ensures updated == PlaceAll(slots, indices, letter)
  {
    updated := slots;
    for j := 0 to |indices|
      invariant updated == PlaceAll(slots, indices[..j], letter)
    {
      assert indices[..j + 1][..j] == indices[..j];
      updated := SetSlot(updated, indices[j], letter);
    }
    assert indices[..|indices|] == indices;
  }

  /**
   * After placing, the given positions hold the letter, the other old slots
   * keep their value, new slots past the old end are empty, and the slots
   * grow only as far as the last written position.
   */
  lemma {:induction false} PlaceAllAt(slots: seq<string>, indices: seq<nat>, letter: string)
    ensures var r := PlaceAll(slots, indices, letter);
      && |r| >= |slots|
      && (|r| == |slots| || (|r| - 1) in indices)
      && (forall i :: i in indices ==> i < |r|)
      && (forall k :: 0 <= k < |r| ==> r[k] == if k in indices then letter else if k < |slots| then slots[k] else "")
    decreases |indices|
  {
    if indices != [] {
      var init := indices[..|indices| - 1];
      PlaceAllAt(slots, init, letter);
      assert indices == init + [indices[|indices| - 1]];
    }
  }

  /**
   * Placing a letter at its matching blanks keeps the slot invariant, and a
   * slot that was already filled keeps its letter: no filled slot is cleared.
   */
  lemma PlaceMatchesKeepsFit(oracion: string, audio: string, slots: seq<string>, letter: string)
    requires SlotsFit(oracion, audio, slots)
    ensures var r := PlaceAll(slots, PlaceholderIndices(oracion, audio, letter), letter);
      && SlotsFit(oracion, audio, r)
      && |r| >= |slots|
      && (forall k :: 0 <= k < |slots| && slots[k] != "" ==> r[k] == slots[k])
  {
    var targets := PlaceholderIndices(oracion, audio, letter);
    PlaceholderIndicesSpec(oracion, audio, letter);
    PlaceAllAt(slots, targets, letter);
    var r := PlaceAll(slots, targets, letter);
    if |r| != |slots| {
      assert Qualifies(oracion, audio, letter, |r| - 1);
    }
  }

  /** Completion is never lost: a complete sentence stays complete after any selection. */
  lemma SelectionKeepsComplete(oracion: string, audio: string, slots: seq<string>, letter: string)
    requires SlotsFit(oracion, audio, slots)
    requires IsCompleteOf(oracion, slots)
    ensures IsCompleteOf(oracion, PlaceAll(slots, PlaceholderIndices(oracion, audio, letter), letter))
  {
    var r := PlaceAll(slots, PlaceholderIndices(oracion, audio, letter), letter);
    PlaceMatchesKeepsFit(oracion, audio, slots, letter);
    CompleteIff(oracion, audio, slots);
    CompleteIff(oracion, audio, r);
    assert forall k: nat :: Filled(slots, k) ==> Filled(r, k);
  }

  /** A slot array of n empty strings fits any sentence with at least n characters. */
  lemma EmptySlotsFit(oracion: string, audio: string)
    ensures SlotsFit(oracion, audio, Repeat("", BlankCount(oracion)))
  {
    BlankCountBound(oracion);
  }

  /** The number of pieces the blank marker splits the sentence into, less one: the number of blank markers. */
  function BlankCount(oracion: string): (n: nat)
  {
    multiset(oracion)[Placeholder]
  }

  lemma {:induction false} BlankCountBound(oracion: string)
    ensures BlankCount(oracion) <= |oracion|
  {
    if oracion != [] {
      BlankCountBound(oracion[1..]);
      assert oracion == [oracion[0]] + oracion[1..];
    }
  }

  /**
   * The per-lesson part of the session invariant: the requirement map is the
   * lesson's, the slots fit its sentence, and the pool is the lesson's padded
   * pool with the letters of `removed` taken out entirely.
   */
  ghost predicate LessonState(l: Lesson, freq: FreqMap, slots: seq<string>, pool: seq<string>, removed: set<string>)
  {
    && freq == LetterFrequency(l.letrasCorrectas)
    && SlotsFit(l.oracion, l.audio, slots)
    && pool == Without(PaddedPool(l.letrasDisponibles, freq), removed)
  }

  /** The body of the completion request: the exercise id, the completed flag and the score. */
  datatype Report = Report(idEjercicio: int, completado: bool, puntuacion: int)

  /** The score the completion request always sends. */
  const Score: int := 10

  class CompletaLaFrase {
    /** The lessons of every "CP" exercise, flattened. */
    var lessons: seq<Lesson>
    /** The id of the last "CP" exercise, sent with the completion request. */
    var idEjercicio: int
    var currentLessonIndex: nat
    /** Placed letters by sentence position; "" is an empty slot. */
    var selectedLetters: seq<string>
    /** The letters offered to the learner. */
    var availableLetters: seq<string>
    /** How often each letter must be placed in the current lesson. */
    var letterFrequency: FreqMap
    /** Completion requests issued, in order. */
    var reports: seq<Report>
    /** The screen has navigated to the completion screen. */
    var finished: bool
    /** The letters removed from the pool since the current lesson started. */
    ghost var removed: set<string>

    function Current(): (l: Lesson)
      reads this
      requires currentLessonIndex < |lessons|
    {
      lessons[currentLessonIndex]
    }

    /**
     * The session invariant: the index is in range, the requirement map is the
     * current lesson's, the slots fit its sentence, and the pool is the
     * lesson's padded pool with some letters removed entirely.
     */
    ghost predicate Valid()
      reads this
    {
      && 0 < |lessons|
      && currentLessonIndex < |lessons|
      && LessonState(Current(), letterFrequency, selectedLetters, availableLetters, removed)
    }

    /** The state right after the per-lesson reset: empty slots, fresh map and full pool. */
    ghost predicate FreshLesson()
      reads this
      requires currentLessonIndex < |lessons|
    {
      && selectedLetters == Repeat("", BlankCount(Current().oracion))
      && letterFrequency == LetterFrequency(Current().letrasCorrectas)
      && availableLetters == PaddedPool(Current().letrasDisponibles, letterFrequency)
    }

    /** `isComplete`, taken over the sentence the current state shows. */
    predicate IsComplete()
      reads this
      requires Valid()
    {
      IsCompleteOf(Current().oracion, selectedLetters)
    }

    /** The session once the fetched exercises have been loaded and the first lesson set up. */
    constructor (data: seq<LessonData>)
      requires |CPLessons(data)| > 0
      ensures Valid() && FreshLesson()
      ensures lessons == CPLessons(data) && currentLessonIndex == 0
      ensures LastCP(data).Some? && idEjercicio == LastCP(data).value.id
      ensures reports == [] && !finished
    {
      LastCPOfLessons(data);
      lessons := CPLessons(data);
      idEjercicio := LastCP(data).value.id;
      currentLessonIndex := 0;
      selectedLetters := [];
      availableLetters := [];
      letterFrequency := FreqMap([], map[]);
      reports := [];
      finished := false;
      removed := {};
      new;
      StartLesson();
    }

    /** The effect run on every index change: rebuild the map, the slots and the pool. */
    method StartLesson()
      requires 0 < |lessons| && currentLessonIndex < |lessons|
      modifies this
      ensures Valid() && FreshLesson()
      ensures lessons == old(lessons) && currentLessonIndex == old(currentLessonIndex)
      ensures idEjercicio == old(idEjercicio) && reports == old(reports) && finished == old(finished)
    {
      var currentLesson := lessons[currentLessonIndex];
      var frequency := CalculateLetterFrequency(currentLesson.letrasCorrectas);
      var pool := GenerateAvailableLetters(currentLesson.letrasDisponibles, frequency);
      WithoutNothing(pool);
      EmptySlotsFit(currentLesson.oracion, currentLesson.audio);
      letterFrequency := frequency;
      selectedLetters := Repeat("", BlankCount(currentLesson.oracion));
      availableLetters := pool;
      removed := {};
    }

    /** `getUpdatedSentence` on the current state. */
    method UpdatedSentence() returns (s: string)
      requires Valid()
      ensures s == Join(Overlay(Current().oracion, selectedLetters))
      ensures |s| == |Current().oracion|
      ensures forall k :: 0 <= k < |s| ==>
        s[k] == if k < |selectedLetters| && selectedLetters[k] != "" then Current().audio[k] else Current().oracion[k]
      ensures Placeholder !in s <==> IsComplete()
    {
      s := GetUpdatedSentence(Current().oracion, selectedLetters);
      ShownSentence(Current().oracion, Current().audio, selectedLetters);
    }

    /**
     * `handleLetterSelect`: a letter already placed as often as the map allows,
     * or with no matching blank, changes nothing; otherwise it is written into
     * every matching blank at once, and all its copies leave the pool when
     * `currentCount + 1 == maxCount`.
     */
    method HandleLetterSelect(letter: string)
      requires Valid()
      modifies this
      ensures Valid()
      ensures lessons == old(lessons) && currentLessonIndex == old(currentLessonIndex)
      ensures letterFrequency == old(letterFrequency)
      ensures idEjercicio == old(idEjercicio) && reports == old(reports) && finished == old(finished)
      ensures
        var currentCount := multiset(old(selectedLetters))[letter];
        var maxCount := Lookup(letterFrequency, letter);
        var targets := PlaceholderIndices(Current().oracion, Current().audio, letter);
        var accepted := currentCount < maxCount && targets != [];
        && selectedLetters == (if accepted then PlaceAll(old(selectedLetters), targets, letter) else old(selectedLetters))
        && availableLetters == (if accepted && currentCount + 1 == maxCount
                                then Without(old(availableLetters), {letter})
                                else old(availableLetters))
    {
      var currentLesson := lessons[currentLessonIndex];
      var currentCount := multiset(selectedLetters)[letter];
      var maxCount := Lookup(letterFrequency, letter);
      if currentCount < maxCount {
        var placeholderIndices := GetAllPlaceholderIndices(currentLesson.oracion, currentLesson.audio, letter);
        if |placeholderIndices| > 0 {
          var updatedSelectedLetters := PlaceLetter(selectedLetters, placeholderIndices, letter);
          assert LessonState(currentLesson, letterFrequency, updatedSelectedLetters, availableLetters, removed) by {
            PlaceMatchesKeepsFit(currentLesson.oracion, currentLesson.audio, selectedLetters, letter);
          }
          selectedLetters := updatedSelectedLetters;
          if currentCount + 1 == maxCount {
            assert LessonState(currentLesson, letterFrequency, selectedLetters, Without(availableLetters, {letter}), removed + {letter}) by {
              WithoutWithout(PaddedPool(currentLesson.letrasDisponibles, letterFrequency), removed, {letter});
            }
            availableLetters := Without(availableLetters, {letter});
            removed := removed + {letter};
          }
        }
      }
    }

    /**
     * `handleNextLesson`: before the last lesson, move on by one and reset;
     * on the last lesson, send the completion request and leave for the
     * completion screen.
     */
    method HandleNextLesson()
      requires Valid()
      modifies this
      ensures Valid()
      ensures lessons == old(lessons) && idEjercicio == old(idEjercicio)
      ensures currentLessonIndex >= old(currentLessonIndex)
      ensures old(currentLessonIndex) < |lessons| - 1 ==>
        && currentLessonIndex == old(currentLessonIndex) + 1
        && FreshLesson()
        && reports == old(reports) && finished == old(finished)
      ensures old(currentLessonIndex) == |lessons| - 1 ==>
        && currentLessonIndex == old(currentLessonIndex)
        && selectedLetters == old(selectedLetters) && availableLetters == old(availableLetters)
        && letterFrequency == old(letterFrequency)
        && reports == old(reports) + [Report(idEjercicio, true, Score)]
        && finished
    {
      if currentLessonIndex < |lessons| - 1 {
        currentLessonIndex := currentLessonIndex + 1;
        StartLesson();
      } else {
        reports := reports + [Report(idEjercicio, true, Score)];
        finished := true;
      }
    }

    /** The forward button: disabled, and so without effect, unless the sentence is complete. */
    method PressNext()
      requires Valid()
      modifies this
      ensures Valid()
      ensures !old(IsComplete()) ==> unchanged(this)
      ensures lessons == old(lessons) && idEjercicio == old(idEjercicio)
      ensures currentLessonIndex >= old(currentLessonIndex)
      ensures old(IsComplete()) && old(currentLessonIndex) < |lessons| - 1 ==>
        && currentLessonIndex == old(currentLessonIndex) + 1
        && FreshLesson()
        && reports == old(reports) && finished == old(finished)
      ensures old(IsComplete()) && old(currentLessonIndex) == |lessons| - 1 ==>
        && currentLessonIndex == old(currentLessonIndex)
        && selectedLetters == old(selectedLetters) && availableLetters == old(availableLetters)
        && reports == old(reports) + [Report(idEjercicio, true, Score)]
        && finished
    {
      var isButtonDisabled := !IsComplete();
      if !isButtonDisabled {
        HandleNextLesson();
      }
    }
  }
}
