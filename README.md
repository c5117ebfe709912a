# Spanish–Czech vocabulary trainer, modelled in Dafny

This models `vocab.py`, a small Flask app that drills Spanish and Czech words. Lessons are read
from one JSON file, `vocabs.txt`. Each lesson has a name and a list of words; a word has a Spanish form, a Czech
form and an optional `type`. The model covers:

- **Progress** (`progress.dfy`). The cookie session keeps a list `completed` of lesson ids written
  as decimal strings. The lesson-list, skip, unskip, reset and mark-complete routes change it.
  `Session` is a class whose `completed` field is `Option<seq<string>>`: `None` means the key is
  absent from the cookie. Its invariant `Session.Valid` says the list never holds an id twice.
  Every route keeps it.
- **Dictionary view** (`dictionary.dfy`). This route flattens all lessons and counts the words per
  word type; an untyped word counts as `"Other"`.
- **Practice set-up** (`practice.dfy`, `distractors.dfy`). The route chooses which words to drill,
  either one lesson or a multi-selection, and redirects when none are left. It also builds the
  deduplicated Spanish and Czech pools that wrong answers are drawn from.
- **Quiz page script** (`fisher_yates.dfy`, `quiz.dfy`). This is the JavaScript inside the practice
  template:
  - the in-place Fisher–Yates `shuffle`;
  - building the four answer options;
  - the `loadQuestion` / `checkAnswer` / `nextQuestion` / `showEndScreen` state machine, as the
    class `QuizSession`.

  A missed word is pushed again at the end of the list. The end screen sends one completion POST,
  and only for a single-lesson session.
- **Scenarios** (`scenarios.dfy`). These are concrete runs on a two-word lesson: a perfect run, a run
  with one miss, and a request whose only selected lesson does not exist.

Randomness is a parameter. Each call to `Math.random()` is replaced by a stream `rolls: nat -> nat`.
The `t`-th draw of `Math.floor(Math.random() * c)` is `rolls(t) % c`. The question direction
(`Math.random() > 0.5`) is a boolean `esCz`.

`str(lesson_id)` is modelled as `Progress.IdString`, the decimal digits with no leading zeros. It is
proved injective.

`Seqs` and `Wrappers` hold generic helpers (`NoDup`, `IndexOf`, `Option`).

### Where the code and its description differ (the model follows the code)

- A multi-select that names a lesson twice drills its words twice. `extend` runs once per
  selection, with no deduplication (`Practice.CustomPoolAppend`).
- When `lesson_id` is present, `custom_lessons` is ignored, even if the id is out of range. The
  request then redirects.
- A single lesson whose word list is empty also redirects.
- The quiz walks `words` by index. A miss appends the word to the end of the list, and nothing is
  removed from the front.
- `completed` is a list, not a set. Skip and mark-complete never add an id twice. Unskip removes the
  first occurrence, like Python's `list.remove`.
- The options skip `undefined` entries and empty strings, because they are falsy in JavaScript. So a
  question can have fewer than four options.
- The distractor pools keep the first-occurrence order of each string.

## Model

| member | source | states |
|---|---|---|
| Progress.IdString | vocab.py:548 | `str(n)` is a non-empty string of decimal digits, exactly one digit iff `n < 10` |
| Progress.IdStringInjective | vocab.py:548-549 | distinct lesson ids give distinct keys, so marking one lesson never marks another |
| Progress.Mark | vocab.py:547-550 | appending if absent: the key is in the result; nothing else is added; an already-present key leaves the list unchanged; the list stays duplicate-free |
| Progress.Unmark | vocab.py:557-558 | `list.remove` after the membership test: the list is unchanged if the key is absent, else only the first occurrence is dropped (split at `IndexOf`) |
| Progress.UnmarkMultiset | vocab.py:557-558 | removal takes exactly one copy of a present key out of the multiset of entries |
| Progress.UnmarkKeepsOthers | vocab.py:558 | removing one key keeps every other key's membership |
| Progress.UnmarkNoDup | vocab.py:557-558 | on a duplicate-free list the key is gone afterwards and the list stays duplicate-free |
| Progress.UnmarkUndoesMark | vocab.py:547-558 | unskip after skip of a fresh key restores the previous list |
| Progress.Session.ViewLessons | vocab.py:536-540 | the lesson list initialises an absent `completed` key to `[]` and shows the stored list; the list stays duplicate-free (`Session.Valid`) |
| Progress.Session.SkipLesson | vocab.py:542-551 | the key is initialised if absent and the id is marked; the lesson shows as completed; other lessons keep their status; the list stays duplicate-free |
| Progress.Session.UnskipLesson | vocab.py:553-560 | an absent key stays absent; otherwise the id is removed once; afterwards the lesson is not completed; other lessons keep their status; the list stays duplicate-free |
| Progress.Session.ResetProgress | vocab.py:562-565 | the list becomes `[]`, no lesson is completed, and the invariant holds again |
| Progress.Session.MarkComplete | vocab.py:567-575 | same update as skip, and the reply status is `"success"` |
| VocabData.FlattenMembers | vocab.py:583-585 | a word is in the flattened list iff some lesson contains it |
| VocabData.FlattenAppend | vocab.py:583-585 | flattening distributes over concatenation of datasets |
| Dictionary.DictionaryView | vocab.py:577-589 | `all_words` is the flattened dataset in lesson order, `total_words` its length, `stats` the per-type tally, and the tally's counts sum to `total_words` |
| Dictionary.TallyTotal | vocab.py:583-589 | the counts in `stats` add up to the number of words |
| Dictionary.TallyCounts | vocab.py:586-587 | a type is a key of `stats` iff some word has it, and its count is the number of words of that type |
| Dictionary.UntypedCountedAsOther | vocab.py:586 | a word without `type` is counted under `"Other"` |
| Distractors.Dedup | vocab.py:627-628 | the pool is duplicate-free, holds exactly the strings seen, and is no longer than the input |
| Distractors.DedupFirstOccurrenceOrder | vocab.py:625-628 | pool entries appear in the order of their first occurrence in the input |
| Distractors.BuildDistractors | vocab.py:622-628 | the two nested loops build `DistractorPools(data)`: duplicate-free, containing exactly the Spanish (resp. Czech) forms of all words |
| Practice.CustomPoolAppend | vocab.py:614-617 | the multi-select pool of `a + b` is the pool of `a` followed by that of `b`, so a lesson selected twice contributes its words twice |
| Practice.CustomPoolIncludes | vocab.py:614-617 | every word of every in-range selected lesson is in the pool |
| Practice.CustomPoolSource | vocab.py:614-617 | every pooled word comes from some in-range selected lesson |
| Practice.OutOfRangeSelectionIsEmpty | vocab.py:614-620 | if no selected id is in range the pool is empty, so the request redirects |
| Practice.BuildPractice | vocab.py:597-641 | the exact view for every case: a single lesson in range with words renders that lesson (`is_single_lesson`, its id); a present id otherwise redirects; a non-empty multi-select renders its pool with id `-1` unless the pool is empty; the distractor pools are `DistractorPools(data)` |
| FisherYates.ShuffleFromPermutes | vocab.py:399-405 | the remaining swap steps permute the elements |
| FisherYates.ShuffledPermutes | vocab.py:398-406 | a full shuffle keeps length and multiset of elements |
| FisherYates.ShuffledMembers | vocab.py:398-406 | a full shuffle keeps membership |
| FisherYates.SwapElements | vocab.py:403 | the destructuring swap exchanges the two cells and nothing else |
| FisherYates.Shuffle | vocab.py:398-406 | the in-place loop leaves `Shuffled(old(a[..]), rolls)`, a permutation of the old contents |
| Quiz.WithoutProperties | vocab.py:428 | the filtered pool holds exactly the pool's entries other than the correct answer, is no longer, and keeps duplicate-freedom |
| Quiz.PickedProperties | vocab.py:433-435 | at most three picks, each a non-empty entry among the first three, duplicate-free when the pool is, and, when no pool entry is empty, exactly the first `min(n, |pool|)` entries |
| Quiz.OptionsContents | vocab.py:427-437 | the options hold the correct answer exactly once, 1 to 4 entries, and every other option is a non-empty pool entry |
| Quiz.OptionsDistinct | vocab.py:427-437 | on a duplicate-free pool the options are pairwise distinct |
| Quiz.OptionsCount | vocab.py:427-437 | with no empty strings in the pool there are `1 + min(3, #other answers)` options |
| Quiz.BuildOptions | vocab.py:427-437 | the copy, shuffle, three-step pick and final shuffle produce `OptionsFor(...)` |
| Quiz.QuizSession.constructor | vocab.py:390-515 | the words are shuffled once, at line 409, into a permutation of the practice words; the first `loadQuestion()`, at line 515, shows the first question, or the end screen when there are no words; the word bookkeeping starts from the practice words with nothing answered |
| Quiz.QuizSession.LoadQuestion | vocab.py:411-442 | the end screen iff the index has passed the list; otherwise the prompt, answer and options for `words[currentIndex]` in the chosen direction |
| Quiz.QuizSession.ShowEndScreen | vocab.py:504-513 | the session finishes, and the completion POST for `lesson_id` is sent iff it is a single-lesson session |
| Quiz.QuizSession.CheckAnswer | vocab.py:456-473 | correct iff the choice equals the answer; a miss appends the current word again at the end; the index does not move; the word joins the words answered right or the words missed |
| Quiz.QuizSession.NextQuestion | vocab.py:493-496 | the index advances by one and the next question (or the end screen) loads |
| Quiz.QuizSession.FinishedMeansAllCorrect | vocab.py:471-513 | on the end screen the words answered right are exactly the starting words, each as often as it was drawn (as a multiset); the correct-answer count equals the initial word count; the single POST has been sent exactly when the session is single-lesson |
| Scenarios.StartGreetings | vocab.py:597-641 | practising lesson 0 of a two-word dataset renders and starts a two-question quiz |
| Scenarios.PerfectRun | vocab.py:456-513 | answering both questions right ends after two questions with one completion POST for lesson 0 |
| Scenarios.OneMiss | vocab.py:456-496 | one miss makes the quiz three questions long and the missed word comes back last |
| Scenarios.MissingLesson | vocab.py:613-620 | a multi-select of only a non-existent lesson (and an empty lesson) redirects |

## Left out

- `load_vocabs` (vocab.py:13-22) reads files and parses JSON. The dataset is a parameter instead.
- Flask plumbing is left out: routing, `redirect`, `url_for`, `render_template`, `jsonify`, and the
  signed cookie store. A view is a datatype (`Redirect` or `Render`). The session is an object.
- All HTML templates and DOM code are left out: `renderOptions`, `showBottomBar`, `hideBottomBar`,
  disabling buttons and CSS classes. They only display state.
- `updateProgress` (vocab.py:498-502) is left out. It sets a floating-point percentage on a progress
  bar.
- `Math.random` is replaced by input streams. The model does not state that the shuffle is uniform.
- FisherYates.Shuffle: it does not state that every permutation is equally likely, because the
  random source is a parameter.
- The `fetch` POST from the end screen is not sent. It is recorded in `completionRequests`. The
  server route it calls is modelled separately as `Session.MarkComplete`.
- `int()` parsing of `lesson_id` and `custom_lessons` (vocab.py:608, 615) takes integers. The
  `ValueError` on non-numeric text is not modelled.
- JSON records missing fields are not modelled. These include a lesson without `words`, where
  `data[idx]['words']` raises but `.get('words', [])` does not, and a word without `spanish` or
  `czech`. A word's `notes` (shown by the dictionary page) and other extra fields are dropped.
- A word whose JSON `type` is `null` is not modelled, because `Word.kind` is an `Option` and cannot
  hold it. `w.get('type', 'Other')` (vocab.py:586) would count such a word under the key `None`,
  not under `"Other"`.
- `custom_training` (vocab.py:591-595) only lists the lessons for the selection form, so it is not
  modelled. The index page's rendering is modelled only as far as `IsComplete`, the `str(i) in
  completed` test at vocab.py:209.
- Concurrency of requests sharing one cookie is not modelled.
