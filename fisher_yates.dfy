/**
 * The quiz page's `shuffle(array)`: a Fisher–Yates shuffle in place. The random
 * draws are an input: `rolls(t)` is the t-th draw, and with `c` elements still
 * unshuffled it selects index `rolls(t) % c`, which stands for `Math.floor(Math.random() * c)`.
 */
module FisherYates {

  /** Exchange the elements at `i` and `j`. */
  function Swap<T>(s: seq<T>, i: nat, j: nat): (r: seq<T>)
    requires i < |s| && j < |s|
    ensures |r| == |s|
  {
    s[i := s[j]][j := s[i]]
  }

  /** Exchanging two elements rearranges the sequence. */
  lemma SwapPermutes<T>(s: seq<T>, i: nat, j: nat)
    requires i < |s| && j < |s|
    ensures multiset(Swap(s, i, j)) == multiset(s)
  {
  }

  /** The shuffle's remaining steps when `c` elements are still unshuffled and `t` draws have been used. */
  function ShuffleFrom<T>(s: seq<T>, c: nat, rolls: nat -> nat, t: nat): (r: seq<T>)
    requires c <= |s|
    ensures |r| == |s|
    decreases c
  {
    if c == 0 then s else ShuffleFrom(Swap(s, c - 1, rolls(t) % c), c - 1, rolls, t + 1)
  }

  /** One step of the shuffle. */
  lemma ShuffleFromStep<T>(s: seq<T>, c: nat, rolls: nat -> nat, t: nat)
    requires 0 < c <= |s|
    ensures ShuffleFrom(s, c, rolls, t) == ShuffleFrom(Swap(s, c - 1, rolls(t) % c), c - 1, rolls, t + 1)
  {
  }

  /** The result of shuffling `s` with the draws `rolls`. */
  function Shuffled<T>(s: seq<T>, rolls: nat -> nat): (r: seq<T>)
  {
    ShuffleFrom(s, |s|, rolls, 0)
  }

  /** Each step only exchanges two elements, so the shuffle rearranges and never adds or drops. */
  lemma {:induction false} ShuffleFromPermutes<T>(s: seq<T>, c: nat, rolls: nat -> nat, t: nat)
    requires c <= |s|
    ensures multiset(ShuffleFrom(s, c, rolls, t)) == multiset(s)
    decreases c
  {
    if c > 0 {
      var s' := Swap(s, c - 1, rolls(t) % c);
      ShuffleFromStep(s, c, rolls, t);
      SwapPermutes(s, c - 1, rolls(t) % c);
      ShuffleFromPermutes(s', c - 1, rolls, t + 1);
    }
  }

  /** A shuffle is a permutation of its input. */
  lemma ShuffledPermutes<T>(s: seq<T>, rolls: nat -> nat)
    ensures |Shuffled(s, rolls)| == |s|
    ensures multiset(Shuffled(s, rolls)) == multiset(s)
  {
    ShuffleFromPermutes(s, |s|, rolls, 0);
  }

  /** A shuffled array contains exactly what it contained before, rearranged. */
  lemma ShuffledMembers<T>(s: seq<T>, rolls: nat -> nat, x: T)
    ensures x in Shuffled(s, rolls) <==> x in s
  {
    ShuffledPermutes(s, rolls);
    assert x in Shuffled(s, rolls) <==> x in multiset(Shuffled(s, rolls));
  }

  /** The destructuring swap `[array[i], array[j]] = [array[j], array[i]]`. */
  method SwapElements<T>(a: array<T>, i: nat, j: nat)
    requires i < a.Length && j < a.Length
    modifies a
    ensures a[..] == Swap(old(a[..]), i, j)
  {
    var tmp := a[i];
    a[i] := a[j];
    a[j] := tmp;
  }

  method Shuffle<T>(a: array<T>, rolls: nat -> nat)
    modifies a
    ensures a[..] == Shuffled(old(a[..]), rolls)
    ensures multiset(a[..]) == multiset(old(a[..]))
  {
    ghost var s0 := a[..];
    var n := a.Length;
    var currentIndex := n;
    while currentIndex != 0
      invariant 0 <= currentIndex <= n == a.Length
      invariant ShuffleFrom(a[..], currentIndex, rolls, n - currentIndex) == Shuffled(s0, rolls)
    {
      var randomIndex := rolls(n - currentIndex) % currentIndex;
      ShuffleFromStep(a[..], currentIndex, rolls, n - currentIndex);
      currentIndex := currentIndex - 1;
      SwapElements(a, currentIndex, randomIndex);
    }
    assert ShuffleFrom(a[..], 0, rolls, n) == a[..];
    ShuffledPermutes(s0, rolls);
  }
}
