/**
 * The lesson records the exercise screen consumes, and the selection of the
 * fill-in-the-blank lessons out of the fetched exercise list: keep the
 * entries of type "CP" and flatten their `Ejercicios` in order.
 */
module Lessons {

  datatype Option<T> = None | Some(value: T)

  /** One fill-in-the-blank lesson; `audio` doubles as the per-character answer key. */
  datatype Lesson = Lesson(
    id: int,
    oracion: string,
    audio: string,
    letrasDisponibles: seq<string>,
    letrasCorrectas: seq<string>)

  /** One fetched exercise: its type tag, its lessons and the URLs of its recordings. */
  datatype LessonData = LessonData(
    id: int,
    tipoEjercicio: string,
    titulo: string,
    ejercicios: seq<Lesson>,
    audios: seq<string>)

  /** The exercise type of the fill-in-the-blank screen. */
  const FillBlankType: string := "CP"

  predicate IsFillBlank(d: LessonData)
  {
    d.tipoEjercicio == FillBlankType
  }

  /** The lessons one fetched entry contributes: its own when it is "CP", none otherwise. */
  function Picked(d: LessonData): (r: seq<Lesson>)
  {
    if IsFillBlank(d) then d.ejercicios else []
  }

  /** The lessons of the "CP" entries, in the order of the fetched list. */
  function CPLessons(data: seq<LessonData>): (r: seq<Lesson>)
  {
    if data == [] then [] else Picked(data[0]) + CPLessons(data[1..])
  }

  /**
   * The last "CP" entry: the flatMap callback sets the exercise id and the
   * audio list once per "CP" entry, so the last one is what remains.
   */
  function LastCP(data: seq<LessonData>): (r: Option<LessonData>)
    decreases |data|
  {
    if data == [] then None
    else if IsFillBlank(data[|data| - 1]) then Some(data[|data| - 1])
    else LastCP(data[..|data| - 1])
  }

  /** Selecting lessons distributes over concatenation of the fetched list. */
  lemma {:induction false} CPLessonsAppend(a: seq<LessonData>, b: seq<LessonData>)
    ensures CPLessons(a + b) == CPLessons(a) + CPLessons(b)
  {
    if a == [] {
      assert a + b == b;
    } else {
      var ab := a + b;
      assert ab[0] == a[0];
      assert ab[1..] == a[1..] + b;
      CPLessonsAppend(a[1..], b);
      calc {
        CPLessons(ab);
        Picked(a[0]) + CPLessons(a[1..] + b);
        Picked(a[0]) + (CPLessons(a[1..]) + CPLessons(b));
        (Picked(a[0]) + CPLessons(a[1..])) + CPLessons(b);
      }
    }
  }

  /** A lesson is selected exactly when it belongs to some "CP" entry. */
  lemma {:induction false} CPLessonsMember(data: seq<LessonData>, l: Lesson)
    ensures l in CPLessons(data) <==> exists i :: 0 <= i < |data| && IsFillBlank(data[i]) && l in data[i].ejercicios
  {
    if data != [] {
      CPLessonsMember(data[1..], l);
      if exists i :: 0 <= i < |data| && IsFillBlank(data[i]) && l in data[i].ejercicios {
        var i :| 0 <= i < |data| && IsFillBlank(data[i]) && l in data[i].ejercicios;
        if i > 0 {
          assert data[1..][i - 1] == data[i];
        }
      }
      if exists i :: 0 <= i < |data[1..]| && IsFillBlank(data[1..][i]) && l in data[1..][i].ejercicios {
        var i :| 0 <= i < |data[1..]| && IsFillBlank(data[1..][i]) && l in data[1..][i].ejercicios;
        assert data[1..][i] == data[i + 1];
      }
    }
  }

  /** LastCP finds nothing exactly when no entry is "CP". */
  lemma {:induction false} LastCPNone(data: seq<LessonData>)
    ensures LastCP(data).None? <==> forall i :: 0 <= i < |data| ==> !IsFillBlank(data[i])
    decreases |data|
  {
    if data != [] && !IsFillBlank(data[|data| - 1]) {
      var init := data[..|data| - 1];
      LastCPNone(init);
      assert forall i :: 0 <= i < |init| ==> data[i] == init[i];
    }
  }

  /** What LastCP finds is a "CP" entry after which no entry is "CP". */
  lemma {:induction false} LastCPSome(data: seq<LessonData>)
    ensures LastCP(data).Some? ==>
      exists i :: 0 <= i < |data| && data[i] == LastCP(data).value && IsFillBlank(data[i])
        && forall j :: i < j < |data| ==> !IsFillBlank(data[j])
    decreases |data|
  {
    if data == [] {
    } else if IsFillBlank(data[|data| - 1]) {
      var i := |data| - 1;
      assert data[i] == LastCP(data).value && IsFillBlank(data[i]);
    } else {
      var init := data[..|data| - 1];
      LastCPSome(init);
      if LastCP(init).Some? {
        var i :| 0 <= i < |init| && init[i] == LastCP(init).value
          && IsFillBlank(init[i]) && forall j :: i < j < |init| ==> !IsFillBlank(init[j]);
        assert data[i] == init[i];
        forall j | i < j < |data|
          ensures !IsFillBlank(data[j])
        {
          if j < |init| {
            assert data[j] == init[j];
          }
        }
      }
    }
  }

  /** When some lesson is selected, some "CP" entry exists to supply the exercise id. */
  lemma {:induction false} LastCPOfLessons(data: seq<LessonData>)
    requires |CPLessons(data)| > 0
    ensures LastCP(data).Some?
  {
    var l := CPLessons(data)[0];
    CPLessonsMember(data, l);
    LastCPNone(data);
  }
}
