/**
 * A client of the session: the sentence "C_S_" with answer key "CASA",
 * designer letters A, S, X and required letters A, A. One choice of "A"
 * fills both blanks; because the placed count jumps from 0 to 2 rather than
 * to 1, `currentCount + 1 == maxCount` does not hold and "A" stays on offer.
 */
module Scenario {
  import opened Letters
  import opened Frequency
  import opened LetterPool
  import opened Blanks
  import opened Sentence
  import opened Lessons
  import opened Session

  function CasaLesson(): (l: Lesson)
  {
    Lesson(1, "C_S_", "CASA", ["A", "S", "X"], ["A", "A"])
  }

  lemma CasaBlankCount()
    ensures BlankCount(CasaLesson().oracion) == 2
  {
    assert "C_S_" == ['C'] + ['_'] + ['S'] + ['_'];
    assert multiset("C_S_") == multiset(['C']) + multiset(['_']) + multiset(['S']) + multiset(['_']);
  }

  lemma CasaFrequency()
    ensures LetterFrequency(CasaLesson().letrasCorrectas) == FreqMap(["A"], map["A" := 2])
  {
    assert ["A", "A"][..1] == ["A"];
    assert ["A"][..0] == [];
    assert LetterFrequency(["A"]) == FreqMap(["A"], map["A" := 1]);
  }

  lemma CasaPool()
    ensures PaddedPool(CasaLesson().letrasDisponibles, FreqMap(["A"], map["A" := 2])) == ["A", "S", "X", "A"]
  {
    var f := FreqMap(["A"], map["A" := 2]);
    assert multiset(["A", "S", "X"])["A"] == 1;
    assert Repeat("A", 1) == ["A"];
    assert TopUp(["A", "S", "X"], "A", 2) == ["A", "S", "X", "A"];
    assert f.keys[1..] == [];
  }

  lemma CasaIndices()
    ensures PlaceholderIndices(CasaLesson().oracion, CasaLesson().audio, "A") == [1, 3]
  {
    var o, a := "C_S_", "CASA";
    assert !Qualifies(o, a, "A", 0);
    assert Qualifies(o, a, "A", 1);
    assert !Qualifies(o, a, "A", 2);
    assert Qualifies(o, a, "A", 3);
    assert IndicesBelow(o, a, "A", 1) == [];
    assert IndicesBelow(o, a, "A", 2) == [1];
    assert IndicesBelow(o, a, "A", 3) == [1];
  }

  lemma CasaPlace()
    ensures PlaceAll(["", ""], [1, 3], "A") == ["", "A", "", "A"]
  {
    assert [1, 3][..1] == [1];
    assert [1][..0] == [];
    assert PlaceAll(["", ""], [1], "A") == ["", "A"];
  }

  lemma CasaPlacedCount()
    ensures multiset(["", ""])["A"] == 0
    ensures multiset(["", "A", "", "A"])["A"] == 2
  {
    assert ["", "A", "", "A"] == [""] + ["A"] + [""] + ["A"];
  }

  lemma CasaCompletion()
    ensures !IsCompleteOf(CasaLesson().oracion, ["", ""])
    ensures IsCompleteOf(CasaLesson().oracion, ["", "A", "", "A"])
  {
    CompleteIff("C_S_", "CASA", ["", ""]);
    assert !Filled(["", ""], 1);
    CompleteIff("C_S_", "CASA", ["", "A", "", "A"]);
  }

  /** The session right after loading the one-lesson exercise. */
  method CasaStart() returns (s: CompletaLaFrase)
    ensures fresh(s) && s.Valid()
    ensures s.lessons == [CasaLesson()] && s.currentLessonIndex == 0 && s.idEjercicio == 7
    ensures s.selectedLetters == ["", ""] && s.availableLetters == ["A", "S", "X", "A"]
    ensures s.letterFrequency == FreqMap(["A"], map["A" := 2])
    ensures s.reports == [] && !s.finished
  {
    var data := [LessonData(7, FillBlankType, "Completa la frase", [CasaLesson()], [])];
    assert CPLessons(data) == [CasaLesson()] by {
      assert data[1..] == [];
    }
    assert LastCP(data) == Some(data[0]);
    s := new CompletaLaFrase(data);
    assert s.Current() == CasaLesson();
    assert s.selectedLetters == ["", ""] by {
      CasaBlankCount();
      assert Repeat("", 2) == ["", ""];
    }
    assert s.letterFrequency == FreqMap(["A"], map["A" := 2]) by {
      CasaFrequency();
    }
    assert s.availableLetters == ["A", "S", "X", "A"] by {
      CasaFrequency();
      CasaPool();
    }
  }

  /** The learner's state on the lesson, apart from the slots. */
  ghost predicate OnCasa(s: CompletaLaFrase)
    reads s
  {
    && s.Valid()
    && s.lessons == [CasaLesson()] && s.currentLessonIndex == 0 && s.idEjercicio == 7
    && s.availableLetters == ["A", "S", "X", "A"]
    && s.letterFrequency == FreqMap(["A"], map["A" := 2])
    && s.reports == [] && !s.finished
  }

  /** One choice of "A" fills both blanks but leaves "A" in the pool. */
  method CasaPickA(s: CompletaLaFrase)
    requires OnCasa(s) && s.selectedLetters == ["", ""]
    modifies s
    ensures OnCasa(s) && s.selectedLetters == ["", "A", "", "A"] && s.IsComplete()
  {
    CasaIndices();
    CasaPlace();
    CasaCompletion();
    CasaPlacedCount();
    s.HandleLetterSelect("A");
  }

  /** A second "A" is rejected: both required copies are already placed. */
  method CasaPickAAgain(s: CompletaLaFrase)
    requires OnCasa(s) && s.selectedLetters == ["", "A", "", "A"]
    modifies s
    ensures OnCasa(s) && s.selectedLetters == ["", "A", "", "A"]
  {
    CasaPlacedCount();
    s.HandleLetterSelect("A");
  }

  method CasaScenario()
  {
    var s := CasaStart();
    CasaCompletion();
    assert !s.IsComplete();
    s.PressNext();
    assert s.currentLessonIndex == 0 && s.reports == [];
    CasaPickA(s);
    CasaPickAAgain(s);
    CasaCompletion();
    s.PressNext();
    assert s.reports == [Report(7, true, 10)] && s.finished;
  }
}
