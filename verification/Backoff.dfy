/** The reconnect delays of `run_forever` (src/atsq/client.py), over exact reals. */
module Backoff {

  function Min(a: real, b: real): real {
    if a < b then a else b
  }

  function Pow2(k: nat): real {
    if k == 0 then 1.0 else Pow2(k - 1) * 2.0
  }

  /** `x` doubled `k` times. */
  function Doubled(x: real, k: nat): real {
    if k == 0 then x else Doubled(x, k - 1) * 2.0
  }

  lemma {:induction false} DoubledIsTimesPow2(x: real, k: nat)
    ensures Doubled(x, k) == x * Pow2(k)
  {
    if k == 0 {
    } else {
      DoubledIsTimesPow2(x, k - 1);
      var y := Pow2(k - 1);
      assert x * (y * 2.0) == (x * y) * 2.0;
    }
  }

  /** Doubling never turns the sign. */
  lemma {:induction false} DoubledSign(x: real, k: nat)
    ensures x >= 0.0 ==> Doubled(x, k) >= x
    ensures x <= 0.0 ==> Doubled(x, k) <= x
  {
    if k == 0 {
    } else {
      DoubledSign(x, k - 1);
    }
  }

  /** The value of `delay` after `k` passes of the loop since it was last set to `initial`. */
  function DelayAfter(initial: real, max: real, k: nat): real {
    if k == 0 then initial else Min(max, DelayAfter(initial, max, k - 1) * 2.0)
  }

  /** The cap at pass `k`: the maximum, except that doubling lets a negative maximum sink further. */
  function Cap(max: real, k: nat): real
    requires k > 0
  {
    if max >= 0.0 then max else Doubled(max, k - 1)
  }

  /** Closed form, for every initial delay and every maximum. */
  lemma {:induction false} DelayClosedForm(initial: real, max: real, k: nat)
    ensures DelayAfter(initial, max, k) == if k == 0 then initial else Min(Cap(max, k), Doubled(initial, k))
  {
    if k == 1 {
      assert Doubled(initial, 1) == Doubled(initial, 0) * 2.0;
    } else if k > 1 {
      DelayClosedForm(initial, max, k - 1);
      DoubledSign(max, k - 1);
    }
  }

  /** The formula of a capped doubling, for the waits after the first. */
  predicate IsCappedPower(initial: real, max: real, k: nat) {
    DelayAfter(initial, max, k) == Min(max, initial * Pow2(k))
  }

  lemma {:induction false} DoublingKeepsOrder(x: real, y: real, k: nat)
    requires x <= y
    ensures Doubled(x, k) <= Doubled(y, k)
  {
    if k == 0 {
    } else {
      DoublingKeepsOrder(x, y, k - 1);
    }
  }

  lemma {:induction false} DoubledOnce(x: real, k: nat)
    ensures Doubled(x, k + 1) == Doubled(x * 2.0, k)
  {
    if k == 0 {
      assert Doubled(x, 1) == Doubled(x, 0) * 2.0;
    } else {
      DoubledOnce(x, k - 1);
    }
  }

  lemma {:induction false} CapIsNoMatter(initial: real, max: real, k: nat)
    requires k > 0 && (max >= 0.0 || initial * 2.0 <= max)
    ensures IsCappedPower(initial, max, k)
  {
    DelayClosedForm(initial, max, k);
    DoubledIsTimesPow2(initial, k);
    if max < 0.0 {
      DoubledOnce(initial, k - 1);
      DoublingKeepsOrder(initial * 2.0, max, k - 1);
      DoubledSign(max, k - 1);
    }
  }

  /** A maximum that is negative and bites sinks at the second wait: the formula is wrong there. */
  lemma {:induction false} NegativeCapSinks(initial: real, max: real)
    requires max < 0.0 && max < initial * 2.0
    ensures DelayAfter(initial, max, 2) == max * 2.0 && !IsCappedPower(initial, max, 2)
  {
    assert DelayAfter(initial, max, 1) == Min(max, DelayAfter(initial, max, 0) * 2.0) == max;
    assert Pow2(2) == Pow2(1) * 2.0 && Pow2(1) == Pow2(0) * 2.0;
  }

  /**
   From the second wait on the delay is `min(max, initial * 2^k)`, for all `k`, exactly when the
   maximum is not negative or the first doubling is already below it.
   */
  lemma {:induction false} DelayIsCappedPower(initial: real, max: real)
    ensures (forall k: nat :: k > 0 ==> IsCappedPower(initial, max, k)) <==> max >= 0.0 || initial * 2.0 <= max
  {
    if max >= 0.0 || initial * 2.0 <= max {
      forall k: nat | k > 0 ensures IsCappedPower(initial, max, k) {
        CapIsNoMatter(initial, max, k);
      }
    } else {
      NegativeCapSinks(initial, max);
    }
  }

  lemma {:induction false} DelayInRange(initial: real, max: real, k: nat)
    requires 0.0 <= initial <= max
    ensures 0.0 <= DelayAfter(initial, max, k) <= max
    ensures DelayAfter(initial, max, k) <= DelayAfter(initial, max, k + 1)
  {
    if k == 0 {
    } else {
      DelayInRange(initial, max, k - 1);
    }
  }

  /** Delays never shrink between successful starts exactly when the initial delay lies between zero and the maximum. */
  lemma {:induction false} DelaysGrowIff(initial: real, max: real)
    ensures (forall k: nat :: DelayAfter(initial, max, k) <= DelayAfter(initial, max, k + 1))
            <==> 0.0 <= initial <= max
  {
    if 0.0 <= initial <= max {
      forall k: nat ensures DelayAfter(initial, max, k) <= DelayAfter(initial, max, k + 1) {
        DelayInRange(initial, max, k);
      }
    } else {
      assert DelayAfter(initial, max, 1) == Min(max, DelayAfter(initial, max, 0) * 2.0);
      assert !(DelayAfter(initial, max, 0) <= DelayAfter(initial, max, 0 + 1));
    }
  }

  /** With the defaults of five seconds and five minutes. */
  lemma {:induction false} DefaultDelays(k: nat)
    ensures DelayAfter(5.0, 300.0, k) == if k < 6 then [5.0, 10.0, 20.0, 40.0, 80.0, 160.0][k] else 300.0
  {
    if k == 0 {
    } else {
      DefaultDelays(k - 1);
    }
  }

  /** The sum of the first `k` delays. */
  function TotalDelay(initial: real, max: real, k: nat): real {
    if k == 0 then 0.0 else TotalDelay(initial, max, k - 1) + DelayAfter(initial, max, k - 1)
  }

  lemma {:induction false} UncappedSum(initial: real, max: real, k: nat)
    requires initial >= 0.0 && (k > 0 ==> Doubled(initial, k - 1) <= max)
    ensures TotalDelay(initial, max, k) == Doubled(initial, k) - initial
  {
    if k == 0 {
    } else {
      DoubledSign(initial, k - 1);
      if k > 1 {
        DoubledSign(initial, k - 2);
      }
      UncappedSum(initial, max, k - 1);
      DelayClosedForm(initial, max, k - 1);
    }
  }

  /** As long as the cap is not reached, `k` delays sum to `initial * (2^k - 1)`. */
  lemma {:induction false} UncappedTotal(initial: real, max: real, k: nat)
    requires initial >= 0.0 && (k > 0 ==> initial * Pow2(k - 1) <= max)
    ensures TotalDelay(initial, max, k) == initial * (Pow2(k) - 1.0)
  {
    if k > 0 {
      DoubledIsTimesPow2(initial, k - 1);
    }
    UncappedSum(initial, max, k);
    DoubledIsTimesPow2(initial, k);
    var y := Pow2(k);
    assert initial * (y - 1.0) == initial * y - initial;
  }
}
