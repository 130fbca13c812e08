/**
 * The numeric pieces of the DQN update and of greedy action choice, on
 * exact reals: argmax and max over a Q-vector, the Bellman regression
 * targets, and the mean squared error.
 */
module Bellman {

  /** `tf.argmax` over one Q-vector: the first index holding the largest value. */
  function Argmax(v: seq<real>): (k: nat)
    requires |v| > 0
    ensures k < |v|
    ensures forall j :: 0 <= j < |v| ==> v[j] <= v[k]
    ensures forall j :: 0 <= j < k ==> v[j] < v[k]
    decreases |v|
  {
    if |v| == 1 then 0
    else
      var k := Argmax(v[..|v| - 1]);
      if v[|v| - 1] > v[k] then |v| - 1 else k
  }

  /** Only one index is maximal with no earlier maximum, so the argmax is determined by the vector alone. */
  lemma ArgmaxUnique(v: seq<real>, k: nat)
    requires k < |v|
    requires forall j :: 0 <= j < |v| ==> v[j] <= v[k]
    requires forall j :: 0 <= j < k ==> v[j] < v[k]
    ensures k == Argmax(v)
  {
  }

  /** `tf.reduce_max` over one Q-vector. */
  function Max(v: seq<real>): (m: real)
    requires |v| > 0
    ensures m in v
    ensures forall j :: 0 <= j < |v| ==> v[j] <= m
  {
    v[Argmax(v)]
  }

  /** The batch of labels, `np.where(dones, rewards, rewards + gamma * next_Q)`. */
  function Targets(rewards: seq<real>, dones: seq<bool>, nextQ: seq<real>, gamma: real): (y: seq<real>)
    requires |dones| == |rewards| && |nextQ| == |rewards|
    ensures |y| == |rewards|
  {
    seq(|rewards|, i requires 0 <= i < |rewards| =>
      if dones[i] then rewards[i] else rewards[i] + gamma * nextQ[i])
  }

  /** A terminal transition's label is its reward, whatever the discount and the bootstrap estimate. */
  lemma TerminalTarget(rewards: seq<real>, dones: seq<bool>, nextQ: seq<real>, gamma: real, i: nat)
    requires |dones| == |rewards| && |nextQ| == |rewards|
    requires i < |rewards| && dones[i]
    ensures Targets(rewards, dones, nextQ, gamma)[i] == rewards[i]
  {
  }

  /** Entrywise differences. */
  function Diff(y: seq<real>, p: seq<real>): (d: seq<real>)
    requires |y| == |p|
    ensures |d| == |y|
  {
    seq(|y|, i requires 0 <= i < |y| => y[i] - p[i])
  }

  /** The sum of squares of a vector. */
  function SumSquares(d: seq<real>): (s: real)
    ensures s >= 0.0
    decreases |d|
  {
    if d == [] then 0.0 else d[0] * d[0] + SumSquares(d[1..])
  }

  /** `tf.reduce_mean(tf.math.square(y - this_Q))` over a non-empty batch. */
  function Mse(y: seq<real>, p: seq<real>): (loss: real)
    requires |y| == |p| > 0
    ensures loss >= 0.0
  {
    SumSquares(Diff(y, p)) / |y| as real
  }

  /** A vector of zeros has no squared mass. */
  lemma {:induction false} SumSquaresOfZeros(d: seq<real>)
    requires forall i :: 0 <= i < |d| ==> d[i] == 0.0
    ensures SumSquares(d) == 0.0
    decreases |d|
  {
    if d != [] {
      SumSquaresOfZeros(d[1..]);
    }
  }

  /** Predictions that equal their labels have zero loss. */
  lemma MseOfExactFit(y: seq<real>)
    requires |y| > 0
    ensures Mse(y, y) == 0.0
  {
    SumSquaresOfZeros(Diff(y, y));
  }
}
