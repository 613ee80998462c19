/**
  The fixed-length numeric vector operations that the layers of mlp.hpp take
  from the `pure_simd` library: elementwise `+`, `-`, `*`, scalar broadcast
  and the reduction `sum`. Here they are plain operations on sequences of
  reals, so the order in which the library adds terms does not matter.
*/
module Vectors {

  /** `simd::sum(a * b, 0)`: the sum of the elementwise products. */
  function Dot(a: seq<real>, b: seq<real>): real
    requires |a| == |b|
    decreases |a|
  {
    if |a| == 0 then 0.0 else Dot(a[..|a| - 1], b[..|b| - 1]) + a[|a| - 1] * b[|b| - 1]
  }

  /** `simd::scalar<V>(x)`: the vector of `n` copies of `x`. */
  function Scalar(n: nat, x: real): (r: seq<real>)
    ensures |r| == n
  {
    seq(n, _ => x)
  }

  function Add(a: seq<real>, b: seq<real>): (r: seq<real>)
    requires |a| == |b|
    ensures |r| == |a|
  {
    seq(|a|, i requires 0 <= i < |a| => a[i] + b[i])
  }

  function Sub(a: seq<real>, b: seq<real>): (r: seq<real>)
    requires |a| == |b|
    ensures |r| == |a|
  {
    seq(|a|, i requires 0 <= i < |a| => a[i] - b[i])
  }

  function Mul(a: seq<real>, b: seq<real>): (r: seq<real>)
    requires |a| == |b|
    ensures |r| == |a|
  {
    seq(|a|, i requires 0 <= i < |a| => a[i] * b[i])
  }

  /** The dot product extends term by term: adding one more pair adds its product. */
  lemma DotSnoc(a: seq<real>, b: seq<real>, x: real, y: real)
    requires |a| == |b|
    ensures Dot(a + [x], b + [y]) == Dot(a, b) + x * y
  {
    assert (a + [x])[..|a|] == a;
    assert (b + [y])[..|b|] == b;
  }
}
