/** The `/dictionary` page: every word in one table, with a count per word type. */
module Dictionary {
  import opened Wrappers
  import opened VocabData

  /** The type a word is counted under: its `type` field, or "Other" when it has none. */
  function KindOf(w: Word): (r: string)
  {
    w.kind.GetOr("Other")
  }

  /** The counted type of each word, in order. */
  function KindsOf(ws: seq<Word>): (r: seq<string>)
    ensures |r| == |ws|
  {
    seq(|ws|, i requires 0 <= i < |ws| => KindOf(ws[i]))
  }

  /** The `stats` dictionary after counting `ws` one word at a time. */
  function Tally(ws: seq<Word>): (r: map<string, nat>)
  {
    if ws == [] then map[]
    else
      var m := Tally(ws[..|ws| - 1]);
      var t := KindOf(ws[|ws| - 1]);
      m[t := (if t in m then m[t] else 0) + 1]
  }

  /** Counting one more word adds one under its type. */
  lemma TallyStep(ws: seq<Word>, w: Word)
    ensures Tally(ws + [w]) == Tally(ws)[KindOf(w) := (if KindOf(w) in Tally(ws) then Tally(ws)[KindOf(w)] else 0) + 1]
  {
    assert (ws + [w])[..|ws|] == ws;
  }

  /** The sum of all counts in a stats dictionary. */
  ghost function Total(m: map<string, nat>): nat
    decreases |m|
  {
    if m == map[] then 0
    else
      var k :| k in m;
      assert |m - {k}| < |m| by {
        assert m.Keys - {k} < m.Keys;
      }
      m[k] + Total(m - {k})
  }

  /** The total does not depend on which key is taken out first. */
  lemma {:induction false} TotalRemove(m: map<string, nat>, k: string)
    requires k in m
    ensures Total(m) == m[k] + Total(m - {k})
    decreases |m|
  {
    var j :| j in m && Total(m) == m[j] + Total(m - {j});
    if j != k {
      assert |m - {j}| < |m| by { assert m.Keys - {j} < m.Keys; }
      assert |m - {k}| < |m| by { assert m.Keys - {k} < m.Keys; }
      TotalRemove(m - {j}, k);
      TotalRemove(m - {k}, j);
      assert m - {j} - {k} == m - {k} - {j};
    }
  }

  /** Each counted word adds exactly one to the total. */
  lemma {:induction false} TallyTotal(ws: seq<Word>)
    ensures Total(Tally(ws)) == |ws|
  {
    if ws != [] {
      var p := ws[..|ws| - 1];
      var m := Tally(p);
      var t := KindOf(ws[|ws| - 1]);
      TallyTotal(p);
      var m' := Tally(ws);
      TotalRemove(m', t);
      assert m' - {t} == m - {t};
      if t in m {
        TotalRemove(m, t);
      } else {
        assert m - {t} == m;
      }
    }
  }

  /** A type is a key of `stats` exactly when some word is counted under it, and its count is how many such words there are. */
  lemma {:induction false} TallyCounts(ws: seq<Word>, t: string)
    ensures t in Tally(ws) <==> t in KindsOf(ws)
    ensures t in Tally(ws) ==> Tally(ws)[t] == multiset(KindsOf(ws))[t]
  {
    if ws != [] {
      var p := ws[..|ws| - 1];
      TallyCounts(p, t);
      assert KindsOf(ws) == KindsOf(p) + [KindOf(ws[|ws| - 1])];
      assert t in KindsOf(p) <==> t in multiset(KindsOf(p));
    }
  }

  /** A word without a `type` field is counted under "Other". */
  lemma UntypedCountedAsOther(ws: seq<Word>, i: nat)
    requires i < |ws| && ws[i].kind.None?
    ensures "Other" in Tally(ws) && Tally(ws)["Other"] >= 1
  {
    assert KindsOf(ws)[i] == "Other";
    TallyCounts(ws, "Other");
  }

  /** The handler of `/dictionary`: the flat word list, its length and the per-type counts. */
  method DictionaryView(data: Dataset) returns (allWords: seq<Word>, totalWords: nat, stats: map<string, nat>)
    ensures allWords == Flatten(data)
    ensures totalWords == |allWords|
    ensures stats == Tally(allWords)
    ensures Total(stats) == totalWords
  {
    allWords := [];
    stats := map[];
    for li := 0 to |data|
      invariant allWords == Flatten(data[..li])
      invariant stats == Tally(allWords)
    {
      var ws := data[li].words;
      for wi := 0 to |ws|
        invariant allWords == Flatten(data[..li]) + ws[..wi]
        invariant stats == Tally(allWords)
      {
        var w := ws[wi];
        assert ws[..wi + 1] == ws[..wi] + [w];
        TallyStep(allWords, w);
        allWords := allWords + [w];
        var wt := KindOf(w);
        stats := stats[wt := (if wt in stats then stats[wt] else 0) + 1];
      }
      assert ws[..|ws|] == ws;
      FlattenStep(data, li);
    }
    assert data[..|data|] == data;
    totalWords := |allWords|;
    TallyTotal(allWords);
  }
}
