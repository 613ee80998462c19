/**
  The integer linear-congruential generator `fast_rand` of mlp.hpp and the
  way a trainable layer turns its draws into initial weights.

  The process-wide `unsigned int g_seed` becomes an explicit `Seed` that is
  threaded through every call; the 32-bit wrap-around of the unsigned update
  is written out as a remainder modulo 2^32.
*/
module FastRand {

  const FAST_RAND_MAX: nat := 32767
  const MULTIPLIER: nat := 214013
  const INCREMENT: nat := 2531011
  const TWO_16: nat := 0x1_0000
  const TWO_32: nat := 0x1_0000_0000

  /** A value of a 32-bit unsigned integer. */
  type Seed = s: nat | s < TWO_32

  /** The value `g_seed` holds when the process starts. */
  const INITIAL_SEED: Seed := 5

  /** The state update `g_seed = 214013 * g_seed + 2531011` in unsigned 32-bit arithmetic. */
  function Step(s: Seed): Seed
  {
    (MULTIPLIER * s + INCREMENT) % TWO_32
  }

  /** Bits 16 to 30 of a 32-bit value: `(x >> 16) & 0x7FFF`. */
  function HighBits(x: Seed): nat
  {
    (x / TWO_16) % (FAST_RAND_MAX + 1)
  }

  /** One call of `fast_rand()`: the value it returns and the seed it leaves behind. */
  datatype Draw = Draw(value: nat, seed: Seed)

  function FastRand(s: Seed): (r: Draw)
    ensures r.value <= FAST_RAND_MAX
    ensures r.seed == Step(s)
  {
    var s' := Step(s);
    Draw(HighBits(s'), s')
  }

  /**
    The result of `fast_rand` is the 15-bit field just above the low 16 bits
    of the new seed: the new seed splits as `top * 2^31 + value * 2^16 + low`
    with `top` a single bit and `low` a 16-bit remainder.
  */
  lemma FastRandIsBitField(s: Seed)
    ensures var s' := Step(s);
            var low := s' % TWO_16;
            var top := s' / (TWO_16 * (FAST_RAND_MAX + 1));
            && top <= 1
            && s' == top * (TWO_16 * (FAST_RAND_MAX + 1)) + FastRand(s).value * TWO_16 + low
  {
    var s' := Step(s);
    var q := s' / 0x1_0000;
    var top := q / 0x8000;
    assert s' == q * 0x1_0000 + s' % 0x1_0000;
    assert q == top * 0x8000 + q % 0x8000;
    assert s' / 0x8000_0000 == top;
  }

  /** `n` consecutive calls of `fast_rand()` starting from seed `s`. */
  datatype Draws = Draws(values: seq<nat>, seed: Seed)

  function DrawMany(s: Seed, n: nat): (r: Draws)
    ensures |r.values| == n
    ensures forall k :: 0 <= k < n ==> r.values[k] <= FAST_RAND_MAX
    decreases n
  {
    if n == 0 then Draws([], s)
    else
      var first := FastRand(s);
      var rest := DrawMany(first.seed, n - 1);
      Draws([first.value] + rest.values, rest.seed)
  }

  /** Drawing `m + n` values is drawing `m` values and then `n` more from where those left the seed. */
  lemma {:induction false} DrawManySplit(s: Seed, m: nat, n: nat)
    ensures DrawMany(s, m + n).values == DrawMany(s, m).values + DrawMany(DrawMany(s, m).seed, n).values
    ensures DrawMany(s, m + n).seed == DrawMany(DrawMany(s, m).seed, n).seed
    decreases m
  {
    if m > 0 {
      var first := FastRand(s);
      DrawManySplit(first.seed, m - 1, n);
      assert m + n - 1 == (m - 1) + n;
    }
  }

  /** The `k`-th of a run of draws is one `fast_rand()` from the seed left by the first `k`. */
  lemma DrawManyAt(s: Seed, n: nat, k: nat)
    requires k < n
    ensures DrawMany(s, n).values[k] == FastRand(DrawMany(s, k).seed).value
  {
    DrawManySplit(s, k, n - k);
  }

  /** `((float_t)fast_rand()) / ((float_t)FAST_RAND_MAX)`. */
  function InitialWeight(v: nat): (w: real)
    requires v <= FAST_RAND_MAX
    ensures 0.0 <= w <= 1.0
    ensures w == 1.0 <==> v == FAST_RAND_MAX
    ensures w == 0.0 <==> v == 0
  {
    v as real / FAST_RAND_MAX as real
  }

  /** A concrete seed from which `fast_rand()` returns FAST_RAND_MAX, so an initial weight of exactly 1 occurs. */
  lemma InitialWeightOneReachable()
    ensures FastRand(4028364353).value == FAST_RAND_MAX
    ensures InitialWeight(FastRand(4028364353).value) == 1.0
  {
    assert Step(4028364353) == 0x7FFF_0000;
  }

  /** The first value the process draws, from the initial seed 5. */
  lemma FirstDraw()
    ensures FastRand(INITIAL_SEED) == Draw(54, 3601076)
  {
  }
}
