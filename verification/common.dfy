/** Shared vocabulary of the telemetry model: an optional value, the left fold
    that turns a serialized sequence of inbound events into a component's
    state, and the "last k elements" slice the sample window is built on. */
module Common {

  datatype Option<T> = None | Some(value: T) {
    function GetOr(default: T): T {
      if Some? then value else default
    }
  }

  function MinNat(a: nat, b: nat): (r: nat)
    ensures r <= a && r <= b
    ensures r == a || r == b
  {
    if a <= b then a else b
  }

  /** Processes the events `es` one at a time, oldest first, starting in state
      `s`: events reach a component strictly serialized and in delivery order. */
  function Fold<S, E>(step: (S, E) -> S, s: S, es: seq<E>): S
    decreases |es|
  {
    if |es| == 0 then s else Fold(step, step(s, es[0]), es[1..])
  }

  /** Handling one more event after a run is one more step on the run's state. */
  lemma {:induction false} FoldSnoc<S, E>(step: (S, E) -> S, s: S, es: seq<E>, e: E)
    ensures Fold(step, s, es + [e]) == step(Fold(step, s, es), e)
    decreases |es|
  {
    if |es| == 0 {
      assert es + [e] == [e];
    } else {
      assert (es + [e])[1..] == es[1..] + [e];
      FoldSnoc(step, step(s, es[0]), es[1..], e);
    }
  }

  /** A run can be split anywhere: the second half continues from the state the
      first half left behind. */
  lemma {:induction false} FoldAppend<S, E>(step: (S, E) -> S, s: S, a: seq<E>, b: seq<E>)
    ensures Fold(step, s, a + b) == Fold(step, Fold(step, s, a), b)
    decreases |a|
  {
    if |a| == 0 {
      assert a + b == b;
    } else {
      assert (a + b)[1..] == a[1..] + b;
      FoldAppend(step, step(s, a[0]), a[1..], b);
    }
  }

  /** JavaScript's `xs.slice(-k)` for a positive `k`: the last `k` elements of
      `xs`, or all of `xs` when it is shorter. */
  function LastN<T>(xs: seq<T>, k: nat): (r: seq<T>)
    ensures |r| == MinNat(|xs|, k)
    ensures r == xs[|xs| - |r|..]
  {
    if |xs| <= k then xs else xs[|xs| - k..]
  }

  /** Keeping the last `k` of the last `j` is keeping the last `k`. */
  lemma LastNOfLastN<T>(xs: seq<T>, j: nat, k: nat)
    requires k <= j
    ensures LastN(LastN(xs, j), k) == LastN(xs, k)
  {
  }

  /** Trimming, appending one element and trimming again to one more than
      the first cap is the same as appending first and trimming once. */
  lemma LastNSnoc<T>(xs: seq<T>, x: T, k: nat)
    ensures LastN(LastN(xs, k) + [x], k + 1) == LastN(xs + [x], k + 1)
  {
    var ys := xs + [x];
    if |xs| > k {
      assert ys[|ys| - (k + 1)..] == xs[|xs| - k..] + [x];
    }
  }
}
