/** The `/practice` handler: choose the words to quiz and hand them to the page. */
module Practice {
  import opened Wrappers
  import opened VocabData
  import opened Distractors

  /** The words lesson `idx` contributes: its words when `idx` is in range, none otherwise. */
  function LessonWords(data: Dataset, idx: int): (r: seq<Word>)
  {
    if 0 <= idx < |data| then data[idx].words else []
  }

  /** The pool for a custom selection: the selected lessons' words, in selection order. */
  function CustomPool(data: Dataset, picks: seq<int>): (r: seq<Word>)
  {
    if picks == [] then [] else CustomPool(data, picks[..|picks| - 1]) + LessonWords(data, picks[|picks| - 1])
  }

  /** Selecting one more index appends that lesson's words. */
  lemma CustomPoolStep(data: Dataset, picks: seq<int>, idx: int)
    ensures CustomPool(data, picks + [idx]) == CustomPool(data, picks) + LessonWords(data, idx)
  {
    assert (picks + [idx])[..|picks|] == picks;
  }

  /** Selecting `a` then `b` gives the pool of `a` followed by the pool of `b`; a repeated index contributes again. */
  lemma {:induction false} CustomPoolAppend(data: Dataset, a: seq<int>, b: seq<int>)
    ensures CustomPool(data, a + b) == CustomPool(data, a) + CustomPool(data, b)
  {
    if b == [] {
      assert a + b == a;
    } else {
      var b', last := b[..|b| - 1], b[|b| - 1];
      calc {
        CustomPool(data, a + b);
        { assert a + b == (a + b') + [last]; }
        CustomPool(data, (a + b') + [last]);
        { CustomPoolStep(data, a + b', last); }
        CustomPool(data, a + b') + LessonWords(data, last);
        { CustomPoolAppend(data, a, b'); }
        CustomPool(data, a) + CustomPool(data, b') + LessonWords(data, last);
        { CustomPoolStep(data, b', last); assert b == b' + [last]; }
        CustomPool(data, a) + CustomPool(data, b);
      }
    }
  }

  /** A one-index selection is that lesson's words. */
  lemma CustomPoolSingle(data: Dataset, idx: int)
    requires 0 <= idx < |data|
    ensures CustomPool(data, [idx]) == data[idx].words
  {
    assert [idx][..0] == [];
  }

  /** Every word of every selected in-range lesson is in the custom pool. */
  lemma {:induction false} CustomPoolIncludes(data: Dataset, picks: seq<int>, k: nat, w: Word)
    requires k < |picks| && 0 <= picks[k] < |data| && w in data[picks[k]].words
    ensures w in CustomPool(data, picks)
  {
    var n := |picks| - 1;
    var p, last := picks[..n], picks[n];
    assert picks == p + [last];
    CustomPoolStep(data, p, last);
    if k < n {
      assert p[k] == picks[k];
      CustomPoolIncludes(data, p, k, w);
    }
  }

  /** Every word of the custom pool comes from a selected in-range lesson. */
  lemma {:induction false} CustomPoolSource(data: Dataset, picks: seq<int>, w: Word) returns (k: nat)
    requires w in CustomPool(data, picks)
    ensures k < |picks| && 0 <= picks[k] < |data| && w in data[picks[k]].words
  {
    var n := |picks| - 1;
    var p, last := picks[..n], picks[n];
    assert picks == p + [last];
    CustomPoolStep(data, p, last);
    if w in CustomPool(data, p) {
      k := CustomPoolSource(data, p, w);
      assert p[k] == picks[k];
    } else {
      k := n;
    }
  }

  /** Only out-of-range indices give an empty pool, hence a redirect. */
  lemma OutOfRangeSelectionIsEmpty(data: Dataset, picks: seq<int>)
    requires forall k :: 0 <= k < |picks| ==> !(0 <= picks[k] < |data|)
    ensures CustomPool(data, picks) == []
  {
    if CustomPool(data, picks) != [] {
      var k := CustomPoolSource(data, picks, CustomPool(data, picks)[0]);
    }
  }

  /** What the page receives as `practice_data`. */
  datatype PracticeData = PracticeData(words: seq<Word>, isSingleLesson: bool, lessonId: int)

  /** The handler's two outcomes: a redirect to the lesson list, or the quiz page. */
  datatype PracticeView = Redirect | Render(practiceData: PracticeData, allDict: AllDict)

  /**
   * `lessonId` is the query argument `lesson_id` (absent or an integer),
   * `customLessons` the list of `custom_lessons` arguments.
   */
  method BuildPractice(data: Dataset, lessonId: Option<int>, customLessons: seq<int>) returns (view: PracticeView)
    ensures lessonId.Some? ==>
      var idx := lessonId.value;
      view == if 0 <= idx < |data| && data[idx].words != []
              then Render(PracticeData(data[idx].words, true, idx), DistractorPools(data))
              else Redirect
    ensures lessonId.None? ==>
      view == if CustomPool(data, customLessons) != []
              then Render(PracticeData(CustomPool(data, customLessons), false, -1), DistractorPools(data))
              else Redirect
  {
    var practiceWords: seq<Word> := [];
    var isSingle := false;
    var lId := -1;
    if lessonId.Some? {
      var idx := lessonId.value;
      if 0 <= idx < |data| {
        practiceWords := data[idx].words;
        isSingle := true;
        lId := idx;
      }
    } else if customLessons != [] {
      for k := 0 to |customLessons|
        invariant practiceWords == CustomPool(data, customLessons[..k])
      {
        var idx := customLessons[k];
        assert customLessons[..k + 1] == customLessons[..k] + [idx];
        CustomPoolStep(data, customLessons[..k], idx);
        if 0 <= idx < |data| {
          practiceWords := practiceWords + data[idx].words;
        }
      }
      assert customLessons[..|customLessons|] == customLessons;
    }
    if practiceWords == [] {
      return Redirect;
    }
    var allSpanish, allCzech := BuildDistractors(data);
    view := Render(PracticeData(practiceWords, isSingle, lId), AllDict(allSpanish, allCzech));
  }
}
