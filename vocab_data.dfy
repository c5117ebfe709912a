/**
 * The dataset read from `vocabs.txt`: an ordered list of lessons, each an ordered
 * list of words. A lesson is identified by its 0-based position in the list.
 */
module VocabData {
  import opened Wrappers

  /** One vocabulary entry. `kind` is the optional JSON field `type`. */
  datatype Word = Word(spanish: string, czech: string, kind: Option<string>)

  datatype Lesson = Lesson(name: string, words: seq<Word>)

  type Dataset = seq<Lesson>

  /** Every word of every lesson, lesson by lesson, in order. */
  function Flatten(data: Dataset): (r: seq<Word>)
  {
    if data == [] then [] else Flatten(data[..|data| - 1]) + data[|data| - 1].words
  }

  /** Flattening one more lesson appends its words. */
  lemma FlattenStep(data: Dataset, k: nat)
    requires k < |data|
    ensures Flatten(data[..k + 1]) == Flatten(data[..k]) + data[k].words
  {
    assert data[..k + 1][..k] == data[..k];
  }

  /** Flattening distributes over concatenation of datasets. */
  lemma {:induction false} FlattenAppend(a: Dataset, b: Dataset)
    ensures Flatten(a + b) == Flatten(a) + Flatten(b)
  {
    if b == [] {
      assert a + b == a;
    } else {
      var b' := b[..|b| - 1];
      assert (a + b)[..|a + b| - 1] == a + b';
      FlattenAppend(a, b');
    }
  }

  /** A word is in the flattening exactly when some lesson holds it. */
  lemma {:induction false} FlattenMembers(data: Dataset, w: Word)
    ensures w in Flatten(data) <==> exists k :: 0 <= k < |data| && w in data[k].words
  {
    if data != [] {
      var n := |data| - 1;
      FlattenMembers(data[..n], w);
      if w in Flatten(data) && w !in data[n].words {
        var k :| 0 <= k < n && w in data[..n][k].words;
        assert data[k] == data[..n][k];
      }
      if exists k :: 0 <= k < |data| && w in data[k].words {
        var k :| 0 <= k < |data| && w in data[k].words;
        if k < n {
          assert data[..n][k] == data[k];
        }
      }
    }
  }

  /** The `spanish` field of each word, in order. */
  function SpanishOf(ws: seq<Word>): (r: seq<string>)
    ensures |r| == |ws|
  {
    seq(|ws|, i requires 0 <= i < |ws| => ws[i].spanish)
  }

  /** The `czech` field of each word, in order. */
  function CzechOf(ws: seq<Word>): (r: seq<string>)
    ensures |r| == |ws|
  {
    seq(|ws|, i requires 0 <= i < |ws| => ws[i].czech)
  }
}
