/**
 * The quiz that runs in the practice page. `words` is the session's word list,
 * shuffled once; `currentIndex` walks through it, and a missed word is pushed
 * again at the end, so the quiz ends only once every word has been answered right.
 */
module Quiz {
  import opened Seqs
  import opened VocabData
  import opened Distractors
  import opened Practice
  import opened FisherYates

  function Min(a: nat, b: nat): nat { if a <= b then a else b }

  /** `distractorPool.filter(w => w !== correctAnswer)`. */
  function Without(pool: seq<string>, x: string): (r: seq<string>)
  {
    if pool == [] then []
    else if pool[0] == x then Without(pool[1..], x)
    else [pool[0]] + Without(pool[1..], x)
  }

  /** Filtering keeps exactly the entries different from `x`, and keeps a duplicate-free pool duplicate-free. */
  lemma {:induction false} WithoutProperties(pool: seq<string>, x: string)
    ensures forall y :: y in Without(pool, x) <==> y in pool && y != x
    ensures |Without(pool, x)| <= |pool|
    ensures NoDup(pool) ==> NoDup(Without(pool, x))
  {
    if pool != [] {
      var rest := pool[1..];
      WithoutProperties(rest, x);
      assert pool == [pool[0]] + rest;
      if NoDup(pool) {
        assert NoDup(rest) by {
          forall i, j | 0 <= i < j < |rest| ensures rest[i] != rest[j] {
            assert rest[i] == pool[i + 1] && rest[j] == pool[j + 1];
          }
        }
        assert pool[0] !in rest;
        if pool[0] != x {
          var r := [pool[0]] + Without(rest, x);
          forall i, j | 0 <= i < j < |r| ensures r[i] != r[j] {
            if i == 0 {
              assert r[j] in Without(rest, x);
            } else {
              assert r[i] == Without(rest, x)[i - 1] && r[j] == Without(rest, x)[j - 1];
            }
          }
        }
      }
    }
  }

  /**
   * What `for (i = 0; i < n; i++) if (pool[i]) options.push(pool[i])` pushes: the entries at
   * positions below `n` that exist and are not the empty string (both are falsy in JavaScript).
   */
  function Picked(pool: seq<string>, n: nat): (r: seq<string>)
  {
    if n == 0 then []
    else if n - 1 < |pool| && pool[n - 1] != "" then Picked(pool, n - 1) + [pool[n - 1]]
    else Picked(pool, n - 1)
  }

  /**
   * At most `n` entries are pushed, each a non-empty entry among the first `n`; distinct
   * when the pool is; and exactly the first `min(n, |pool|)` when no entry is empty.
   */
  lemma {:induction false} PickedProperties(pool: seq<string>, n: nat)
    ensures |Picked(pool, n)| <= n
    ensures forall x :: x in Picked(pool, n) ==> x != "" && x in pool[..Min(n, |pool|)]
    ensures NoDup(pool) ==> NoDup(Picked(pool, n))
    ensures (forall i :: 0 <= i < |pool| ==> pool[i] != "") ==> Picked(pool, n) == pool[..Min(n, |pool|)]
  {
    if n > 0 {
      var p := Picked(pool, n - 1);
      PickedProperties(pool, n - 1);
      if n - 1 < |pool| {
        assert pool[..n] == pool[..n - 1] + [pool[n - 1]];
        if pool[n - 1] != "" && NoDup(pool) {
          assert pool[n - 1] !in pool[..n - 1];
          NoDupAppend(p, pool[n - 1]);
        }
      } else {
        assert Min(n, |pool|) == Min(n - 1, |pool|);
      }
    }
  }

  /**
   * The option list of one question: the correct answer plus up to three entries of the
   * shuffled, filtered distractor pool, the whole list shuffled again.
   */
  function OptionsFor(correctAnswer: string, pool: seq<string>, filterRolls: nat -> nat, optionRolls: nat -> nat): (r: seq<string>)
  {
    Shuffled([correctAnswer] + Picked(Shuffled(Without(pool, correctAnswer), filterRolls), 3), optionRolls)
  }

  /** The entries taken from the shuffled filtered pool are non-empty pool entries other than the answer. */
  lemma PickedFromPool(correctAnswer: string, pool: seq<string>, filterRolls: nat -> nat, o: string)
    requires o in Picked(Shuffled(Without(pool, correctAnswer), filterRolls), 3)
    ensures o in pool && o != correctAnswer && o != ""
  {
    var sf := Shuffled(Without(pool, correctAnswer), filterRolls);
    PickedProperties(sf, 3);
    assert o in sf;
    ShuffledMembers(Without(pool, correctAnswer), filterRolls, o);
    WithoutProperties(pool, correctAnswer);
  }

  /**
   * The options hold the correct answer exactly once, at most four entries, and otherwise
   * only non-empty distractors from the pool.
   */
  lemma OptionsContents(correctAnswer: string, pool: seq<string>, filterRolls: nat -> nat, optionRolls: nat -> nat)
    ensures var r := OptionsFor(correctAnswer, pool, filterRolls, optionRolls);
      && correctAnswer in r
      && multiset(r)[correctAnswer] == 1
      && 1 <= |r| <= 4
      && (forall o :: o in r && o != correctAnswer ==> o in pool && o != "")
  {
    var picked := Picked(Shuffled(Without(pool, correctAnswer), filterRolls), 3);
    var list := [correctAnswer] + picked;
    var r := Shuffled(list, optionRolls);
    ShuffledPermutes(list, optionRolls);
    PickedProperties(Shuffled(Without(pool, correctAnswer), filterRolls), 3);
    assert correctAnswer !in picked by {
      if correctAnswer in picked { PickedFromPool(correctAnswer, pool, filterRolls, correctAnswer); }
    }
    assert multiset(list) == multiset{correctAnswer} + multiset(picked);
    assert correctAnswer in multiset(r);
    forall o | o in r && o != correctAnswer ensures o in pool && o != "" {
      assert o in multiset(r);
      assert o in picked;
      PickedFromPool(correctAnswer, pool, filterRolls, o);
    }
  }

  /** With a duplicate-free pool the options are distinct. */
  lemma OptionsDistinct(correctAnswer: string, pool: seq<string>, filterRolls: nat -> nat, optionRolls: nat -> nat)
    requires NoDup(pool)
    ensures NoDup(OptionsFor(correctAnswer, pool, filterRolls, optionRolls))
  {
    var f := Without(pool, correctAnswer);
    WithoutProperties(pool, correctAnswer);
    var sf := Shuffled(f, filterRolls);
    ShuffledPermutes(f, filterRolls);
    NoDupPermutation(f, sf);
    var picked := Picked(sf, 3);
    PickedProperties(sf, 3);
    assert correctAnswer !in picked by {
      if correctAnswer in picked { PickedFromPool(correctAnswer, pool, filterRolls, correctAnswer); }
    }
    var list := [correctAnswer] + picked;
    assert NoDup(list) by {
      forall i, j | 0 <= i < j < |list| ensures list[i] != list[j] {
        assert list[j] == picked[j - 1];
        if i > 0 {
          assert list[i] == picked[i - 1];
        }
      }
    }
    ShuffledPermutes(list, optionRolls);
    NoDupPermutation(list, Shuffled(list, optionRolls));
  }

  /** When no pool entry is empty there are `1 + min(3, eligible)` options. */
  lemma OptionsCount(correctAnswer: string, pool: seq<string>, filterRolls: nat -> nat, optionRolls: nat -> nat)
    requires forall y :: y in pool ==> y != ""
    ensures |OptionsFor(correctAnswer, pool, filterRolls, optionRolls)| == 1 + Min(3, |Without(pool, correctAnswer)|)
  {
    var f := Without(pool, correctAnswer);
    WithoutProperties(pool, correctAnswer);
    var sf := Shuffled(f, filterRolls);
    ShuffledPermutes(f, filterRolls);
    forall i | 0 <= i < |sf| ensures sf[i] != "" {
      ShuffledMembers(f, filterRolls, sf[i]);
    }
    PickedProperties(sf, 3);
    var list := [correctAnswer] + Picked(sf, 3);
    ShuffledPermutes(list, optionRolls);
  }

  /** `loadQuestion`'s option building, with the two shuffles done in place on arrays. */
  method BuildOptions(correctAnswer: string, distractorPool: seq<string>, filterRolls: nat -> nat, optionRolls: nat -> nat)
    returns (options: seq<string>)
    ensures options == OptionsFor(correctAnswer, distractorPool, filterRolls, optionRolls)
  {
    var filtered := Without(distractorPool, correctAnswer);
    var filteredPool := new string[|filtered|](i requires 0 <= i < |filtered| => filtered[i]);
    assert filteredPool[..] == filtered;
    var opts := [correctAnswer];
    Shuffle(filteredPool, filterRolls);
    ghost var shuffledPool := filteredPool[..];
    for i := 0 to 3
      invariant opts == [correctAnswer] + Picked(shuffledPool, i)
    {
      if i < filteredPool.Length && filteredPool[i] != "" {
        opts := opts + [filteredPool[i]];
      }
    }
    var optionArray := new string[|opts|](i requires 0 <= i < |opts| => opts[i]);
    assert optionArray[..] == opts;
    Shuffle(optionArray, optionRolls);
    options := optionArray[..];
  }

  /** The word shown for a direction: Spanish for "es-cz", Czech for "cz-es". */
  function Prompt(w: Word, esCz: bool): string { if esCz then w.spanish else w.czech }

  /** The expected answer: the other field of the same word. */
  function Answer(w: Word, esCz: bool): string { if esCz then w.czech else w.spanish }

  /** The distractor pool in the answer's language. */
  function PoolFor(dict: AllDict, esCz: bool): seq<string> { if esCz then dict.czech else dict.spanish }

  /** Pushing the current word again leaves the words before it and the word itself in place. */
  lemma PushKeepsPrefix(ws: seq<Word>, i: nat)
    requires i < |ws|
    ensures (ws + [ws[i]])[..i] == ws[..i] && (ws + [ws[i]])[i] == ws[i]
    ensures multiset(ws + [ws[i]]) == multiset(ws) + multiset{ws[i]}
  {
  }

  /** Moving past `ws[i]` adds it to the words behind the index. */
  lemma PrefixStep(ws: seq<Word>, i: nat)
    requires i < |ws|
    ensures multiset(ws[..i + 1]) == multiset(ws[..i]) + multiset{ws[i]}
  {
    assert ws[..i + 1] == ws[..i] + [ws[i]];
  }

  /** Where the page is: awaiting an answer, showing the verdict bar, or on the end screen. */
  datatype Phase = Asking | Answered | Finished

  class QuizSession {
    var words: seq<Word>
    var currentIndex: nat
    var questionWord: string
    var correctAnswer: string
    var currentOptions: seq<string>
    var phase: Phase
    /** The `/mark_complete/<id>` POSTs sent so far. */
    var completionRequests: seq<int>
    const isSingleLesson: bool
    const lessonId: int
    const allDict: AllDict
    /** Bookkeeping: the pool's size at the start and the answers given so far. */
    ghost var initialCount: nat
    ghost var correctCount: nat
    ghost var wrongCount: nat
    /** The same bookkeeping by word: the pool at the start, the words answered right and missed. */
    ghost var initialWords: multiset<Word>
    ghost var rightWords: multiset<Word>
    ghost var wrongWords: multiset<Word>

    /**
     * Every miss lengthens `words` by one; `currentIndex` counts the answered questions;
     * the end screen is shown exactly when the index has run past the list, and the
     * completion POST has then been sent once, for a single-lesson session only.
     * By word: the list is the starting pool plus one copy per miss, and the words already
     * behind the index are exactly those answered, right or wrong.
     */
    ghost predicate Valid()
      reads this
    {
      && |words| == initialCount + wrongCount
      && currentIndex <= |words|
      && multiset(words) == initialWords + wrongWords
      && completionRequests == (if phase == Finished && isSingleLesson then [lessonId] else [])
      && match phase
         case Asking =>
           && currentIndex < |words| && currentIndex == correctCount + wrongCount
           && multiset(words[..currentIndex]) == rightWords + wrongWords
         case Answered =>
           && currentIndex < |words| && currentIndex + 1 == correctCount + wrongCount
           && multiset(words[..currentIndex]) + multiset{words[currentIndex]} == rightWords + wrongWords
         case Finished =>
           && currentIndex == |words| && currentIndex == correctCount + wrongCount
           && multiset(words[..currentIndex]) == rightWords + wrongWords
    }

    /** Between `currentIndex++` and the next `loadQuestion`. */
    ghost predicate Loading()
      reads this
    {
      && |words| == initialCount + wrongCount
      && currentIndex <= |words|
      && currentIndex == correctCount + wrongCount
      && multiset(words) == initialWords + wrongWords
      && multiset(words[..currentIndex]) == rightWords + wrongWords
      && completionRequests == []
      && phase != Finished
    }

    /** The question on screen is `words[currentIndex]` asked in direction `esCz`. */
    ghost predicate Shows(esCz: bool, filterRolls: nat -> nat, optionRolls: nat -> nat)
      reads this
    {
      && currentIndex < |words|
      && questionWord == Prompt(words[currentIndex], esCz)
      && correctAnswer == Answer(words[currentIndex], esCz)
      && currentOptions == OptionsFor(correctAnswer, PoolFor(allDict, esCz), filterRolls, optionRolls)
    }

    /** The page script: shuffle the session's words once, then load the first question. */
    constructor (data: PracticeData, dict: AllDict, wordRolls: nat -> nat,
                 esCz: bool, filterRolls: nat -> nat, optionRolls: nat -> nat)
      ensures Valid()
      ensures words == Shuffled(data.words, wordRolls) && currentIndex == 0
      ensures multiset(words) == multiset(data.words)
      ensures isSingleLesson == data.isSingleLesson && lessonId == data.lessonId && allDict == dict
      ensures initialCount == |data.words| && correctCount == 0 && wrongCount == 0
      ensures initialWords == multiset(data.words) && rightWords == multiset{} && wrongWords == multiset{}
      ensures data.words == [] <==> phase == Finished
      ensures phase == Asking ==> Shows(esCz, filterRolls, optionRolls)
    {
      var a := new Word[|data.words|](i requires 0 <= i < |data.words| => data.words[i]);
      assert a[..] == data.words;
      Shuffle(a, wordRolls);
      ShuffledPermutes(data.words, wordRolls);
      words := a[..];
      currentIndex := 0;
      questionWord, correctAnswer, currentOptions := "", "", [];
      phase := Asking;
      completionRequests := [];
      isSingleLesson, lessonId, allDict := data.isSingleLesson, data.lessonId, dict;
      initialCount, correctCount, wrongCount := |data.words|, 0, 0;
      initialWords, rightWords, wrongWords := multiset(data.words), multiset{}, multiset{};
      new;
      assert words[..0] == [];
      LoadQuestion(esCz, filterRolls, optionRolls);
    }

    /** `loadQuestion`: the end screen once the list is exhausted, else the next question. */
    method LoadQuestion(esCz: bool, filterRolls: nat -> nat, optionRolls: nat -> nat)
      requires Loading()
      modifies this
      ensures Valid()
      ensures words == old(words) && currentIndex == old(currentIndex)
      ensures initialCount == old(initialCount) && correctCount == old(correctCount) && wrongCount == old(wrongCount)
      ensures initialWords == old(initialWords) && rightWords == old(rightWords) && wrongWords == old(wrongWords)
      ensures phase == Finished <==> currentIndex >= |words|
      ensures phase != Answered
      ensures phase == Asking ==> Shows(esCz, filterRolls, optionRolls)
    {
      if currentIndex >= |words| {
        ShowEndScreen();
        return;
      }
      var wordObj := words[currentIndex];
      questionWord := if esCz then wordObj.spanish else wordObj.czech;
      correctAnswer := if esCz then wordObj.czech else wordObj.spanish;
      var distractorPool := if esCz then allDict.czech else allDict.spanish;
      currentOptions := BuildOptions(correctAnswer, distractorPool, filterRolls, optionRolls);
      phase := Asking;
    }

    /** `showEndScreen`: the session is over; a single-lesson session asks to be marked complete. */
    method ShowEndScreen()
      requires Loading() && currentIndex >= |words|
      modifies this
      ensures Valid() && phase == Finished
      ensures completionRequests == if isSingleLesson then [lessonId] else []
      ensures words == old(words) && currentIndex == old(currentIndex)
      ensures initialCount == old(initialCount) && correctCount == old(correctCount) && wrongCount == old(wrongCount)
      ensures initialWords == old(initialWords) && rightWords == old(rightWords) && wrongWords == old(wrongWords)
    {
      phase := Finished;
      if isSingleLesson {
        completionRequests := completionRequests + [lessonId];
      }
    }

    /** `checkAnswer`: a miss pushes the current word again at the end of the list. */
    method CheckAnswer(selected: string) returns (isCorrect: bool)
      requires Valid() && phase == Asking
      modifies this
      ensures Valid() && phase == Answered
      ensures isCorrect <==> selected == old(correctAnswer)
      ensures words == if isCorrect then old(words) else old(words) + [old(words[currentIndex])]
      ensures currentIndex == old(currentIndex) && correctAnswer == old(correctAnswer)
      ensures questionWord == old(questionWord) && currentOptions == old(currentOptions)
      ensures initialCount == old(initialCount)
      ensures correctCount == old(correctCount) + (if isCorrect then 1 else 0)
      ensures wrongCount == old(wrongCount) + (if isCorrect then 0 else 1)
      ensures initialWords == old(initialWords)
      ensures rightWords == old(rightWords) + (if isCorrect then multiset{old(words[currentIndex])} else multiset{})
      ensures wrongWords == old(wrongWords) + (if isCorrect then multiset{} else multiset{old(words[currentIndex])})
    {
      var w := words[currentIndex];
      PushKeepsPrefix(words, currentIndex);
      isCorrect := selected == correctAnswer;
      if isCorrect {
        correctCount, rightWords, phase := correctCount + 1, rightWords + multiset{w}, Answered;
      } else {
        words, wrongCount, wrongWords, phase := words + [w], wrongCount + 1, wrongWords + multiset{w}, Answered;
      }
    }

    /** `nextQuestion`: the Continue button. */
    method NextQuestion(esCz: bool, filterRolls: nat -> nat, optionRolls: nat -> nat)
      requires Valid() && phase == Answered
      modifies this
      ensures Valid()
      ensures currentIndex == old(currentIndex) + 1 && words == old(words)
      ensures initialCount == old(initialCount) && correctCount == old(correctCount) && wrongCount == old(wrongCount)
      ensures initialWords == old(initialWords) && rightWords == old(rightWords) && wrongWords == old(wrongWords)
      ensures phase == Finished <==> currentIndex >= |words|
      ensures phase != Answered
      ensures phase == Asking ==> Shows(esCz, filterRolls, optionRolls)
    {
      PrefixStep(words, currentIndex);
      currentIndex := currentIndex + 1;
      LoadQuestion(esCz, filterRolls, optionRolls);
    }

    /** On the end screen every word of the original pool has been answered correctly once. */
    lemma FinishedMeansAllCorrect()
      requires Valid() && phase == Finished
      ensures rightWords == initialWords
      ensures correctCount == initialCount
      ensures completionRequests == if isSingleLesson then [lessonId] else []
    {
      assert words[..currentIndex] == words;
      forall x: Word ensures rightWords[x] == initialWords[x] {
        assert multiset(words)[x] == rightWords[x] + wrongWords[x] == initialWords[x] + wrongWords[x];
      }
      assert rightWords == initialWords;
    }
  }
}
