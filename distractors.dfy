/**
 * The global answer pools for wrong options: every distinct Spanish and every
 * distinct Czech string in the dataset, in order of first occurrence.
 */
module Distractors {
  import opened Seqs
  import opened VocabData

  /** Keep the first occurrence of each string (a loop of append-if-absent). */
  function Dedup(s: seq<string>): (d: seq<string>)
    ensures NoDup(d)
    ensures forall x :: x in d <==> x in s
    ensures |d| <= |s|
  {
    if s == [] then []
    else
      var p := Dedup(s[..|s| - 1]);
      var x := s[|s| - 1];
      assert s == s[..|s| - 1] + [x];
      if x in p then p else p + [x]
  }

  /** Appending one more string. */
  lemma DedupStep(s: seq<string>, x: string)
    ensures Dedup(s + [x]) == if x in Dedup(s) then Dedup(s) else Dedup(s) + [x]
  {
    assert (s + [x])[..|s|] == s;
  }

  /** Dedup lists strings in the order in which each first appears. */
  lemma {:induction false} DedupFirstOccurrenceOrder(s: seq<string>, i: nat, j: nat)
    requires i < j < |Dedup(s)|
    ensures IndexOf(s, Dedup(s)[i]) < IndexOf(s, Dedup(s)[j])
  {
    var n := |s| - 1;
    var s', x := s[..n], s[n];
    assert s == s' + [x];
    var p := Dedup(s');
    var d := Dedup(s);
    IndexOfPrefix(s', [x], d[i]);
    if j < |p| {
      assert d[i] == p[i] && d[j] == p[j];
      DedupFirstOccurrenceOrder(s', i, j);
      IndexOfPrefix(s', [x], d[j]);
    } else {
      assert d == p + [x] && d[j] == x && x !in s';
      IndexOfUnique(s, x, n);
    }
  }

  /** Taking one more word extends both field lists by that word's fields. */
  lemma FieldsStep(before: seq<Word>, ws: seq<Word>, wi: nat)
    requires wi < |ws|
    ensures SpanishOf(before + ws[..wi + 1]) == SpanishOf(before + ws[..wi]) + [ws[wi].spanish]
    ensures CzechOf(before + ws[..wi + 1]) == CzechOf(before + ws[..wi]) + [ws[wi].czech]
  {
    assert before + ws[..wi + 1] == (before + ws[..wi]) + [ws[wi]];
  }

  /** The pools the quiz draws wrong answers from (`all_dict` in the page). */
  datatype AllDict = AllDict(spanish: seq<string>, czech: seq<string>)

  /** The pools as the handler builds them from the whole dataset. */
  function DistractorPools(data: Dataset): AllDict
  {
    AllDict(Dedup(SpanishOf(Flatten(data))), Dedup(CzechOf(Flatten(data))))
  }

  /** The nested loop in `practice` that fills `all_spanish` and `all_czech`. */
  method BuildDistractors(data: Dataset) returns (allSpanish: seq<string>, allCzech: seq<string>)
    ensures AllDict(allSpanish, allCzech) == DistractorPools(data)
    ensures NoDup(allSpanish) && NoDup(allCzech)
    ensures forall x :: x in allSpanish <==> x in SpanishOf(Flatten(data))
    ensures forall x :: x in allCzech <==> x in CzechOf(Flatten(data))
  {
    allSpanish, allCzech := [], [];
    for li := 0 to |data|
      invariant allSpanish == Dedup(SpanishOf(Flatten(data[..li])))
      invariant allCzech == Dedup(CzechOf(Flatten(data[..li])))
    {
      var ws := data[li].words;
      ghost var before := Flatten(data[..li]);
      assert before + ws[..0] == before;
      for wi := 0 to |ws|
        invariant allSpanish == Dedup(SpanishOf(before + ws[..wi]))
        invariant allCzech == Dedup(CzechOf(before + ws[..wi]))
      {
        var w := ws[wi];
        FieldsStep(before, ws, wi);
        DedupStep(SpanishOf(before + ws[..wi]), w.spanish);
        DedupStep(CzechOf(before + ws[..wi]), w.czech);
        if w.spanish !in allSpanish { allSpanish := allSpanish + [w.spanish]; }
        if w.czech !in allCzech { allCzech := allCzech + [w.czech]; }
      }
      assert ws[..|ws|] == ws;
      FlattenStep(data, li);
    }
    assert data[..|data|] == data;
  }
}
