/**
 Evenly spaced index sequences in the manner of numpy's `arange(0, stop, step)`,
 in exact real arithmetic. The sequence starts at 0 and walks by `step` for as
 long as the value stays strictly on the near side of `stop`; its length is
 `max(0, ceil(stop / step))`. A zero step has no such sequence (numpy raises),
 so every member here asks for a non-zero step and callers model the error.
 */
module Ranges {

  /** The least integer that is not below `x`. */
  function Ceil(x: real): (n: int)
    ensures x <= n as real
    ensures (n - 1) as real < x
  {
    if x.Floor as real == x then x.Floor else x.Floor + 1
  }

  /** The k-th value of a walk from 0 by `step`. */
  function Nth(k: nat, step: real): real
  {
    k as real * step
  }

  /** Whether `v` lies strictly before `stop` when walking from 0 in the direction of `step`. */
  predicate BeforeStop(v: real, stop: real, step: real)
  {
    if step > 0.0 then v < stop else v > stop
  }

  /** Number of values `arange(0, stop, step)` produces. */
  function ArangeCount(stop: real, step: real): nat
    requires step != 0.0
  {
    var c := Ceil(stop / step);
    if c < 0 then 0 else c
  }

  /** `arange(0, stop, step)`: the values 0, step, 2*step, ... strictly before `stop`. */
  function Arange(stop: real, step: real): (r: seq<real>)
    requires step != 0.0
    ensures |r| == ArangeCount(stop, step)
    ensures forall k :: 0 <= k < |r| ==> r[k] == Nth(k, step)
  {
    seq(ArangeCount(stop, step), k requires 0 <= k => Nth(k, step))
  }

  /** An integer lies below the ceiling of `x` exactly when it lies below `x`. */
  lemma BelowCeil(k: int, x: real)
    ensures k < Ceil(x) <==> k as real < x
  {
  }

  /** For a non-zero step, `k*step` is before `stop` exactly when `k` is before `stop/step`. */
  lemma BeforeStopScaled(k: nat, stop: real, step: real)
    requires step != 0.0
    ensures BeforeStop(Nth(k, step), stop, step) <==> k as real < stop / step
  {
    var q := stop / step;
    assert stop == q * step;
    if step > 0.0 {
      if k as real < q {
        assert k as real * step < q * step;
      } else {
        assert k as real * step >= q * step;
      }
    } else {
      if k as real < q {
        assert k as real * step > q * step;
      } else {
        assert k as real * step <= q * step;
      }
    }
  }

  /** The k-th value is produced exactly when it lies before `stop`: the arange
      contains every multiple of `step` short of `stop` and nothing else. */
  lemma {:induction false} ArangeMembership(stop: real, step: real, k: nat)
    requires step != 0.0
    ensures k < |Arange(stop, step)| <==> BeforeStop(Nth(k, step), stop, step)
  {
    BelowCeil(k, stop / step);
    BeforeStopScaled(k, stop, step);
  }

  /** A positive step gives a strictly increasing sequence, a negative one a strictly decreasing one. */
  lemma ArangeMonotone(stop: real, step: real, j: nat, k: nat)
    requires step != 0.0
    requires j < k < |Arange(stop, step)|
    ensures step > 0.0 ==> Arange(stop, step)[j] < Arange(stop, step)[k]
    ensures step < 0.0 ==> Arange(stop, step)[j] > Arange(stop, step)[k]
  {
    var d := (k - j) as real;
    assert Nth(k, step) == Nth(j, step) + d * step;
    if step > 0.0 {
      assert d * step > 0.0;
    } else {
      assert d * step < 0.0;
    }
  }

  /** Consecutive values are one step apart. */
  lemma NthNext(k: nat, step: real)
    ensures Nth(k + 1, step) == Nth(k, step) + step
  {
  }

  /** Extending `stop` by one step appends exactly one value, the next multiple,
      provided the extended range is not empty. This is why the families of
      lines drawn over `[0, scale + multiple)` have one more member than those
      drawn over `[0, scale)`. */
  lemma ArangeExtend(stop: real, step: real)
    requires step != 0.0
    requires BeforeStop(0.0, stop + step, step)
    ensures Arange(stop + step, step) == Arange(stop, step) + [Nth(|Arange(stop, step)|, step)]
  {
    var n := |Arange(stop, step)|;
    var n' := |Arange(stop + step, step)|;
    // the next value n*step is still before the extended stop
    ArangeMembership(stop + step, step, n);
    if n > 0 {
      ArangeMembership(stop, step, n - 1);
      NthNext(n - 1, step);
    } else {
      assert Nth(n, step) == 0.0;
    }
    assert n < n';
    // and the one after it is not
    ArangeMembership(stop, step, n);
    ArangeMembership(stop + step, step, n + 1);
    NthNext(n, step);
    assert n' == n + 1;
  }
}
