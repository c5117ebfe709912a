/**
 * Completion tracking: the session key `completed` holds the list of lesson IDs,
 * as decimal strings, that the user has finished or skipped.
 */
module Progress {
  import opened Wrappers
  import opened Seqs

  /** The decimal digit for `d`. */
  function Digit(d: nat): char
    requires d < 10
  {
    (48 + d) as char
  }

  /** Python's `str(n)` for a non-negative integer: decimal, no leading zeros. */
  function IdString(n: nat): (r: string)
    ensures (|r| == 1) == (n < 10) && |r| >= 1
    ensures forall i :: 0 <= i < |r| ==> '0' <= r[i] <= '9'
  {
    if n < 10 then [Digit(n)] else IdString(n / 10) + [Digit(n % 10)]
  }

  /** Distinct lesson IDs have distinct keys, so marking one never marks another. */
  lemma {:induction false} IdStringInjective(a: nat, b: nat)
    requires IdString(a) == IdString(b)
    ensures a == b
  {
    var s := IdString(a);
    if a < 10 && b < 10 {
      assert Digit(a) as int == s[0] as int == Digit(b) as int;
    } else if 10 <= a && 10 <= b {
      var n := |s| - 1;
      assert Digit(a % 10) as int == s[n] as int == Digit(b % 10) as int;
      assert IdString(a / 10) == s[..n] == IdString(b / 10);
      IdStringInjective(a / 10, b / 10);
    }
  }

  /**
   * Append `key` unless it is already present (`skip_lesson`, `mark_complete`).
   * The old entries stay in front, in their order.
   */
  function Mark(comp: seq<string>, key: string): (r: seq<string>)
    ensures key in r
    ensures comp <= r && |r| <= |comp| + 1
    ensures forall x :: x in r <==> x in comp || x == key
    ensures key in comp ==> r == comp
    ensures NoDup(comp) ==> NoDup(r)
  {
    if key in comp then comp else comp + [key]
  }

  /** Remove the first occurrence of `key`, if any (`list.remove` in `unskip_lesson`). */
  function Unmark<T(==)>(comp: seq<T>, key: T): (r: seq<T>)
    ensures key !in comp ==> r == comp
    ensures key in comp ==> r == comp[..IndexOf(comp, key)] + comp[IndexOf(comp, key) + 1..]
  {
    if comp == [] then []
    else if comp[0] == key then comp[1..]
    else
      var rest := Unmark(comp[1..], key);
      assert key in comp ==> comp[..IndexOf(comp, key)] == [comp[0]] + comp[1..][..IndexOf(comp[1..], key)];
      [comp[0]] + rest
  }

  /** Unmarking drops exactly one copy of `key` when there is one, and nothing else. */
  lemma UnmarkMultiset<T>(comp: seq<T>, key: T)
    ensures multiset(Unmark(comp, key)) == multiset(comp) - multiset{key}
  {
    if key in comp {
      MultisetDelete(comp, IndexOf(comp, key));
    }
  }

  /** Every other entry is present after unmarking exactly when it was present before. */
  lemma UnmarkKeepsOthers<T>(comp: seq<T>, key: T, x: T)
    requires x != key
    ensures x in Unmark(comp, key) <==> x in comp
  {
    UnmarkMultiset(comp, key);
    assert x in Unmark(comp, key) <==> x in multiset(Unmark(comp, key));
  }

  /** On a duplicate-free list, unmarking leaves `key` absent and the list duplicate-free. */
  lemma UnmarkNoDup<T>(comp: seq<T>, key: T)
    requires NoDup(comp)
    ensures NoDup(Unmark(comp, key)) && key !in Unmark(comp, key)
  {
    var r := Unmark(comp, key);
    UnmarkMultiset(comp, key);
    NoDupMultiplicity(comp);
    NoDupMultiplicity(r);
    assert multiset(r)[key] == 0;
  }

  /** Removing a key that was just added restores the list. */
  lemma UnmarkUndoesMark(comp: seq<string>, key: string)
    requires key !in comp
    ensures Unmark(Mark(comp, key), key) == comp
  {
    assert IndexOf(comp + [key], key) == |comp| by {
      IndexOfUnique(comp + [key], key, |comp|);
    }
    assert (comp + [key])[..|comp|] == comp;
  }

  /** The Flask session, as far as the `completed` key goes; `None` when it was never set. */
  class Session {
    var completed: Option<seq<string>>

    constructor ()
      ensures completed == None && Valid()
    {
      completed := None;
    }

    /** Skip and mark-complete append only absent ids, so the stored list never holds one twice. */
    ghost predicate Valid()
      reads this
    {
      NoDup(Completed())
    }

    /** The list the lesson page shows: an uninitialised session reads as empty. */
    function Completed(): seq<string>
      reads this
    {
      completed.GetOr([])
    }

    /** The lesson page's `str(i) in completed`. */
    predicate IsComplete(lessonId: nat)
      reads this
    {
      IdString(lessonId) in Completed()
    }

    /** The lesson list (`index`): initialises the key if absent and shows the list. */
    method ViewLessons() returns (shown: seq<string>)
      requires Valid()
      modifies this
      ensures Valid()
      ensures completed == Some(old(Completed())) && shown == old(Completed())
    {
      if completed.None? {
        completed := Some([]);
      }
      shown := completed.value;
    }

    method SkipLesson(lessonId: nat)
      requires Valid()
      modifies this
      ensures Valid()
      ensures completed == Some(Mark(old(Completed()), IdString(lessonId)))
      ensures IsComplete(lessonId)
      ensures forall other: nat :: other != lessonId ==> (IsComplete(other) <==> old(IsComplete(other)))
    {
      if completed.None? {
        completed := Some([]);
      }
      var comp := completed.value;
      var key := IdString(lessonId);
      if key !in comp {
        comp := comp + [key];
        completed := Some(comp);
      }
      forall other: nat | other != lessonId ensures IdString(other) != key {
        if IdString(other) == key { IdStringInjective(other, lessonId); }
      }
    }

    method UnskipLesson(lessonId: nat)
      requires Valid()
      modifies this
      ensures Valid()
      ensures old(completed).None? ==> completed == None
      ensures old(completed).Some? ==> completed == Some(Unmark(old(completed).value, IdString(lessonId)))
      ensures !IsComplete(lessonId)
      ensures forall other: nat :: other != lessonId ==> (IsComplete(other) <==> old(IsComplete(other)))
    {
      var key := IdString(lessonId);
      if completed.Some? {
        var comp := completed.value;
        if key in comp {
          comp := Unmark(comp, key);
          completed := Some(comp);
        }
        UnmarkNoDup(old(completed).value, key);
      }
      forall other: nat | other != lessonId
        ensures IsComplete(other) <==> old(IsComplete(other))
      {
        if IdString(other) == key { IdStringInjective(other, lessonId); }
        UnmarkKeepsOthers(old(Completed()), key, IdString(other));
      }
    }

    method ResetProgress()
      modifies this
      ensures Valid()
      ensures completed == Some([])
      ensures forall id: nat :: !IsComplete(id)
    {
      completed := Some([]);
    }

    /** The `/mark_complete/<id>` endpoint the quiz calls at its end; answers `{"status": "success"}`. */
    method MarkComplete(lessonId: nat) returns (status: string)
      requires Valid()
      modifies this
      ensures Valid()
      ensures completed == Some(Mark(old(Completed()), IdString(lessonId)))
      ensures IsComplete(lessonId)
      ensures forall other: nat :: other != lessonId ==> (IsComplete(other) <==> old(IsComplete(other)))
      ensures status == "success"
    {
      if completed.None? {
        completed := Some([]);
      }
      var comp := completed.value;
      var key := IdString(lessonId);
      if key !in comp {
        comp := comp + [key];
        completed := Some(comp);
      }
      forall other: nat | other != lessonId ensures IdString(other) != key {
        if IdString(other) == key { IdStringInjective(other, lessonId); }
      }
      status := "success";
    }
  }
}
