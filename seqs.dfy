/** Facts about sequences shared by the list-manipulating parts of the app. */
module Seqs {

  /** No element occurs twice. */
  predicate NoDup<T(==)>(s: seq<T>) {
    forall i, j :: 0 <= i < j < |s| ==> s[i] != s[j]
  }

  /** Position of the first occurrence of `x` in `s` (Python's `list.index`). */
  function IndexOf<T(==)>(s: seq<T>, x: T): (i: nat)
    requires x in s
    ensures i < |s| && s[i] == x && x !in s[..i]
  {
    if s[0] == x then 0
    else
      var k := IndexOf(s[1..], x);
      assert s[..k + 1] == [s[0]] + s[1..][..k];
      1 + k
  }

  /** The first occurrence is the only position before which `x` does not occur. */
  lemma IndexOfUnique<T>(s: seq<T>, x: T, i: nat)
    requires i < |s| && s[i] == x && x !in s[..i]
    ensures IndexOf(s, x) == i
  {
  }

  /** Appending does not move the first occurrence of an element already present. */
  lemma IndexOfPrefix<T>(s: seq<T>, t: seq<T>, x: T)
    requires x in s
    ensures IndexOf(s + t, x) == IndexOf(s, x)
  {
    var i := IndexOf(s, x);
    assert (s + t)[..i] == s[..i];
    IndexOfUnique(s + t, x, i);
  }

  /** Appending a new element keeps a sequence duplicate-free. */
  lemma NoDupAppend<T>(s: seq<T>, x: T)
    requires NoDup(s) && x !in s
    ensures NoDup(s + [x])
  {
    var r := s + [x];
    forall i, j | 0 <= i < j < |r| ensures r[i] != r[j] {
      if j == |s| {
        assert r[i] == s[i];
      }
    }
  }

  /** Deleting position `i` removes one copy of `s[i]`. */
  lemma MultisetDelete<T>(s: seq<T>, i: nat)
    requires i < |s|
    ensures multiset(s[..i] + s[i + 1..]) == multiset(s) - multiset{s[i]}
  {
    assert s == s[..i] + [s[i]] + s[i + 1..];
  }

  /** A duplicate-free sequence is one in which every element has multiplicity at most one. */
  lemma {:induction false} NoDupMultiplicity<T>(s: seq<T>)
    ensures NoDup(s) <==> forall x :: multiset(s)[x] <= 1
  {
    if s == [] {
    } else {
      var a, rest := s[0], s[1..];
      assert s == [a] + rest;
      NoDupMultiplicity(rest);
      if NoDup(s) {
        assert NoDup(rest) by {
          forall i, j | 0 <= i < j < |rest| ensures rest[i] != rest[j] {
            assert rest[i] == s[i + 1] && rest[j] == s[j + 1];
          }
        }
        assert a !in rest;
        forall x ensures multiset(s)[x] <= 1 {
          assert multiset(s)[x] == (if x == a then 1 else 0) + multiset(rest)[x];
        }
      } else {
        var i, j :| 0 <= i < j < |s| && s[i] == s[j];
        var x := s[i];
        if i == 0 {
          assert rest[j - 1] == x;
          assert multiset(rest)[x] >= 1;
          assert multiset(s)[x] == 1 + multiset(rest)[x];
        } else {
          assert rest[i - 1] == x && rest[j - 1] == x;
          assert !NoDup(rest);
          var y :| multiset(rest)[y] > 1;
          assert multiset(s)[y] == (if y == a then 1 else 0) + multiset(rest)[y];
        }
      }
    }
  }

  /** Rearranging a duplicate-free sequence keeps it duplicate-free. */
  lemma NoDupPermutation<T>(s: seq<T>, t: seq<T>)
    requires multiset(s) == multiset(t) && NoDup(s)
    ensures NoDup(t)
  {
    NoDupMultiplicity(s);
    NoDupMultiplicity(t);
  }
}
