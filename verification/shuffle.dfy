/**
  The driver's `shuffle(array, n)`: for every `i < n - 1` it draws one
  `rand()` value `r`, picks `j = i + r / (RAND_MAX / (n - i) + 1)` and swaps
  `array[i]` with `array[j]`. libc's `rand()` is an oracle `rand` indexed by
  call number whose every value lies in `[0, randMax]`; a shuffle starting at
  call `pos` consumes calls `pos, pos + 1, ...` and hands back the next one.
*/
module Shuffle {

  /** The contract of libc `rand()`: every value lies in `[0, RAND_MAX]`. */
  ghost predicate RandBounded(rand: nat -> nat, randMax: nat)
  {
    forall k :: rand(k) <= randMax
  }

  /**
    The swap partner of position `i` for the draw `r`. Every operand is
    non-negative, so C's truncating `/` agrees with Dafny's.
  */
  function SwapIndex(i: nat, n: nat, r: nat, randMax: nat): nat
    requires i < n
  {
    i + r / (randMax / (n - i) + 1)
  }

  /** The swap partner never leaves `[i, n - 1]`, whatever `RAND_MAX` is. */
  lemma SwapIndexInRange(i: nat, n: nat, r: nat, randMax: nat)
    requires i < n && r <= randMax
    ensures i <= SwapIndex(i, n, r, randMax) <= n - 1
  {
    var m := n - i;
    var q := randMax / m;
    var d := q + 1;
    assert randMax == q * m + randMax % m;
    assert randMax < d * m;
    QuotientBelow(r, d, m);
  }

  /** `r < d * m` bounds the quotient: `r / d < m`. */
  lemma QuotientBelow(r: nat, d: nat, m: nat)
    requires 0 < d && r < d * m
    ensures r / d < m
  {
    assert r / d * d <= r;
  }

  /** `s` with the entries at `i` and `j` exchanged. */
  function Swap(s: seq<int>, i: nat, j: nat): (r: seq<int>)
    requires i < |s| && j < |s|
    ensures |r| == |s|
  {
    s[i := s[j]][j := s[i]]
  }

  /**
    The reference shuffle: the swaps of rounds `i .. n - 2`, round `i` using
    call `pos` of the stream.
  */
  function ShuffleFrom(s: seq<int>, n: nat, i: nat, rand: nat -> nat, randMax: nat, pos: nat): (r: seq<int>)
    requires n <= |s| && RandBounded(rand, randMax)
    ensures |r| == |s|
    decreases n - i
  {
    if i + 1 >= n then s
    else
      SwapIndexInRange(i, n, rand(pos), randMax);
      ShuffleFrom(Swap(s, i, SwapIndex(i, n, rand(pos), randMax)), n, i + 1, rand, randMax, pos + 1)
  }

  /** The reference shuffle of `shuffle(array, n)`: rounds `0 .. n - 2`. */
  function Shuffled(s: seq<int>, n: nat, rand: nat -> nat, randMax: nat, pos: nat): (r: seq<int>)
    requires n <= |s| && RandBounded(rand, randMax)
    ensures |r| == |s|
  {
    ShuffleFrom(s, n, 0, rand, randMax, pos)
  }

  /** How many `rand()` calls `shuffle(array, n)` makes: one per round, none when `n <= 1`. */
  function Draws(n: nat): nat
  {
    if n > 1 then n - 1 else 0
  }

  // ---------------------------------------------------------------------------
  // Properties of the reference shuffle
  // ---------------------------------------------------------------------------

  /** Round `i` swaps `i` with its partner `j < n`, and the later rounds continue from there. */
  lemma ShuffleFromStep(s: seq<int>, n: nat, i: nat, rand: nat -> nat, randMax: nat, pos: nat)
    requires i + 1 < n <= |s| && RandBounded(rand, randMax)
    ensures i <= SwapIndex(i, n, rand(pos), randMax) < n
    ensures ShuffleFrom(s, n, i, rand, randMax, pos)
         == ShuffleFrom(Swap(s, i, SwapIndex(i, n, rand(pos), randMax)), n, i + 1, rand, randMax, pos + 1)
  {
    SwapIndexInRange(i, n, rand(pos), randMax);
  }

  /** A swap inside the prefix keeps the prefix's multiset. */
  lemma SwapKeeps(s: seq<int>, i: nat, j: nat, n: nat)
    requires i < n && j < n && n <= |s|
    ensures multiset(Swap(s, i, j)[..n]) == multiset(s[..n])
  {
    assert Swap(s, i, j)[..n] == Swap(s[..n], i, j);
    SwapMultiset(s[..n], i, j);
  }

  /** A swap only rearranges: the multiset of the entries stays the same. */
  lemma SwapMultiset(p: seq<int>, i: nat, j: nat)
    requires i < |p| && j < |p|
    ensures multiset(Swap(p, i, j)) == multiset(p)
  {
    if i != j {
      UpdateMultiset(p, i, p[j]);
      UpdateMultiset(p[i := p[j]], j, p[i]);
    }
  }

  /** Overwriting one entry trades its old value for the new one in the multiset. */
  lemma UpdateMultiset(p: seq<int>, i: nat, v: int)
    requires i < |p|
    ensures multiset(p[i := v]) == multiset(p) - multiset{p[i]} + multiset{v}
  {
  }

  /** Rounds `i ..` permute the prefix `[0, n)`. */
  lemma {:induction false} ShuffleFromPermutes(s: seq<int>, n: nat, i: nat, rand: nat -> nat, randMax: nat, pos: nat)
    requires n <= |s| && RandBounded(rand, randMax)
    ensures multiset(ShuffleFrom(s, n, i, rand, randMax, pos)[..n]) == multiset(s[..n])
    decreases n - i
  {
    if i + 1 < n {
      var j := SwapIndex(i, n, rand(pos), randMax);
      ShuffleFromStep(s, n, i, rand, randMax, pos);
      SwapKeeps(s, i, j, n);
      ShuffleFromPermutes(Swap(s, i, j), n, i + 1, rand, randMax, pos + 1);
    }
  }

  /** Rounds `i ..` never touch `[n, |s|)`. */
  lemma {:induction false} ShuffleFromKeepsRest(s: seq<int>, n: nat, i: nat, rand: nat -> nat, randMax: nat, pos: nat)
    requires n <= |s| && RandBounded(rand, randMax)
    ensures ShuffleFrom(s, n, i, rand, randMax, pos)[n..] == s[n..]
    decreases n - i
  {
    if i + 1 < n {
      var j := SwapIndex(i, n, rand(pos), randMax);
      ShuffleFromStep(s, n, i, rand, randMax, pos);
      assert Swap(s, i, j)[n..] == s[n..];
      ShuffleFromKeepsRest(Swap(s, i, j), n, i + 1, rand, randMax, pos + 1);
    }
  }

  /** Rounds `i ..` leave the entries before `i` where they are. */
  lemma {:induction false} ShuffleFromKeepsDone(s: seq<int>, n: nat, i: nat, rand: nat -> nat, randMax: nat, pos: nat)
    requires i <= n <= |s| && RandBounded(rand, randMax)
    ensures ShuffleFrom(s, n, i, rand, randMax, pos)[..i] == s[..i]
    decreases n - i
  {
    if i + 1 < n {
      var j := SwapIndex(i, n, rand(pos), randMax);
      ShuffleFromStep(s, n, i, rand, randMax, pos);
      ShuffleFromKeepsDone(Swap(s, i, j), n, i + 1, rand, randMax, pos + 1);
      assert Swap(s, i, j)[..i] == s[..i];
    }
  }

  /** `shuffle` permutes `array[0, n)`, leaves `array[n, ..)` alone, and is the identity for `n <= 1`. */
  lemma ShuffledPermutes(s: seq<int>, n: nat, rand: nat -> nat, randMax: nat, pos: nat)
    requires n <= |s| && RandBounded(rand, randMax)
    ensures multiset(Shuffled(s, n, rand, randMax, pos)[..n]) == multiset(s[..n])
    ensures Shuffled(s, n, rand, randMax, pos)[n..] == s[n..]
    ensures n <= 1 ==> Shuffled(s, n, rand, randMax, pos) == s
  {
    ShuffleFromPermutes(s, n, 0, rand, randMax, pos);
    ShuffleFromKeepsRest(s, n, 0, rand, randMax, pos);
  }

  /** No two entries of `s` are equal. */
  predicate Distinct(s: seq<int>)
  {
    forall a, b :: 0 <= a < b < |s| ==> s[a] != s[b]
  }

  /** A swap of two entries of a sequence without repeats leaves it without repeats. */
  lemma SwapKeepsDistinct(s: seq<int>, i: nat, j: nat)
    requires i < |s| && j < |s| && Distinct(s)
    ensures Distinct(Swap(s, i, j))
  {
    var t := Swap(s, i, j);
    forall a, b | 0 <= a < b < |t|
      ensures t[a] != t[b]
    {
      var a' := if a == i then j else if a == j then i else a;
      var b' := if b == i then j else if b == j then i else b;
      assert t[a] == s[a'] && t[b] == s[b'] && a' != b';
    }
  }

  /** Rounds `i ..` never create a repeat. */
  lemma {:induction false} ShuffleFromKeepsDistinct(s: seq<int>, n: nat, i: nat, rand: nat -> nat, randMax: nat, pos: nat)
    requires n <= |s| && RandBounded(rand, randMax) && Distinct(s)
    ensures Distinct(ShuffleFrom(s, n, i, rand, randMax, pos))
    decreases n - i
  {
    if i + 1 < n {
      var j := SwapIndex(i, n, rand(pos), randMax);
      ShuffleFromStep(s, n, i, rand, randMax, pos);
      SwapKeepsDistinct(s, i, j);
      ShuffleFromKeepsDistinct(Swap(s, i, j), n, i + 1, rand, randMax, pos + 1);
    }
  }

  /** Over the whole array `shuffle` is a permutation too, and one without repeats stays so. */
  lemma ShuffledRearranges(s: seq<int>, n: nat, rand: nat -> nat, randMax: nat, pos: nat)
    requires n <= |s| && RandBounded(rand, randMax)
    ensures multiset(Shuffled(s, n, rand, randMax, pos)) == multiset(s)
    ensures Distinct(s) ==> Distinct(Shuffled(s, n, rand, randMax, pos))
  {
    var t := Shuffled(s, n, rand, randMax, pos);
    ShuffledPermutes(s, n, rand, randMax, pos);
    assert t == t[..n] + t[n..] && s == s[..n] + s[n..];
    if Distinct(s) {
      ShuffleFromKeepsDistinct(s, n, 0, rand, randMax, pos);
    }
  }

  /** Only the draws at calls `pos .. pos + n - 2` matter. */
  lemma {:induction false} ShuffleFromReadsDraws(s: seq<int>, n: nat, i: nat, rand1: nat -> nat, rand2: nat -> nat,
                                                 randMax: nat, pos: nat)
    requires n <= |s| && RandBounded(rand1, randMax) && RandBounded(rand2, randMax)
    requires forall k :: pos <= k < pos + (n - i) ==> rand1(k) == rand2(k)
    ensures ShuffleFrom(s, n, i, rand1, randMax, pos) == ShuffleFrom(s, n, i, rand2, randMax, pos)
    decreases n - i
  {
    if i + 1 < n {
      assert rand1(pos) == rand2(pos);
      var j := SwapIndex(i, n, rand1(pos), randMax);
      ShuffleFromStep(s, n, i, rand1, randMax, pos);
      ShuffleFromStep(s, n, i, rand2, randMax, pos);
      ShuffleFromReadsDraws(Swap(s, i, j), n, i + 1, rand1, rand2, randMax, pos + 1);
    }
  }

  // ---------------------------------------------------------------------------
  // The loop of the driver
  // ---------------------------------------------------------------------------

  /**
    `shuffle(array, n)`: returns the shuffled array and the position of the
    next unused `rand()` call.
  */
  method ShuffleArray(a: seq<int>, n: nat, rand: nat -> nat, randMax: nat, pos: nat) returns (b: seq<int>, next: nat)
    requires n <= |a| && RandBounded(rand, randMax)
    ensures |b| == |a| && next == pos + Draws(n)
    ensures b == Shuffled(a, n, rand, randMax, pos)
    ensures multiset(b[..n]) == multiset(a[..n]) && b[n..] == a[n..]
    ensures n <= 1 ==> b == a
  {
    ShuffledPermutes(a, n, rand, randMax, pos);
    b := a;
    next := pos;
    if n > 1 {
      var i := 0;
      while i < n - 1
        invariant 0 <= i <= n - 1 && |b| == |a| && next == pos + i
        invariant ShuffleFrom(b, n, i, rand, randMax, next) == Shuffled(a, n, rand, randMax, pos)
      {
        b := SwapRound(b, n, i, rand(next), randMax);
        i := i + 1;
        next := next + 1;
      }
    }
  }

  /** One round of the loop: `j = i + rand() / (RAND_MAX / (n - i) + 1)`, then `array[i]` and `array[j]` trade places. */
  method SwapRound(b: seq<int>, n: nat, i: nat, r: nat, randMax: nat) returns (c: seq<int>)
    requires i < n <= |b| && r <= randMax
    ensures SwapIndex(i, n, r, randMax) < n && c == Swap(b, i, SwapIndex(i, n, r, randMax))
  {
    var j := i + r / (randMax / (n - i) + 1);
    SwapIndexInRange(i, n, r, randMax);
    var t := b[j];
    c := b[j := b[i]];
    c := c[i := t];
  }
}
