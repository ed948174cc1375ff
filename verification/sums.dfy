/**
 * The two ways the application totals a list of amounts with `reduce`:
 * strictly (`sum + item.amount`, which turns into NaN as soon as one amount is
 * `undefined`, while a `null` amount adds 0) and defensively
 * (`sum + (item.amount || 0)`).
 */
module Sums {
  import opened Records

  /** A JavaScript number produced by adding amounts: an integer, or NaN. */
  datatype Total = Amount(value: int) | NaN

  /** `x` used as a number in `+`: `undefined` is NaN, `null` is 0. */
  function Lift(o: Scalar<int>): (t: Total)
    ensures t.NaN? <==> o.Undefined?
    ensures o.Null? ==> t == Amount(0)
    ensures o.Given? ==> t == Amount(o.value)
  {
    match o
    case Undefined => NaN
    case Null => Amount(0)
    case Given(v) => Amount(v)
  }

  /** JavaScript `a + b` on numbers: NaN absorbs. */
  function Add(a: Total, b: Total): Total {
    if a.Amount? && b.Amount? then Amount(a.value + b.value) else NaN
  }

  /** JavaScript `a - b` on numbers: NaN absorbs. */
  function Sub(a: Total, b: Total): Total {
    if a.Amount? && b.Amount? then Amount(a.value - b.value) else NaN
  }

  /** No item of `xs` leaves its amount `undefined` (a `null` one counts as defined). */
  ghost predicate AllDefined<T>(xs: seq<T>, f: T -> Scalar<int>) {
    forall i :: 0 <= i < |xs| ==> !f(xs[i]).Undefined?
  }

  /** `xs.reduce((sum, x) => sum + f(x), 0)`: NaN exactly when some amount is `undefined`. */
  function StrictSum<T>(xs: seq<T>, f: T -> Scalar<int>): (t: Total)
    ensures t.NaN? <==> !AllDefined(xs, f)
    decreases |xs|
  {
    if |xs| == 0 then Amount(0)
    else Add(StrictSum(xs[..|xs| - 1], f), Lift(f(xs[|xs| - 1])))
  }

  /** `xs.reduce((sum, x) => sum + (f(x) || 0), 0)`: an `undefined`, `null` (or zero) amount contributes 0. */
  function DefaultedSum<T>(xs: seq<T>, f: T -> Scalar<int>): (n: int)
    ensures (forall i :: 0 <= i < |xs| ==> !f(xs[i]).Given?) ==> n == 0
    decreases |xs|
  {
    if |xs| == 0 then 0
    else DefaultedSum(xs[..|xs| - 1], f) + f(xs[|xs| - 1]).Or(0)
  }

  /** When no amount is `undefined` the strict total is a number and equals the defensive one. */
  lemma {:induction false} StrictMatchesDefaulted<T>(xs: seq<T>, f: T -> Scalar<int>)
    requires AllDefined(xs, f)
    ensures StrictSum(xs, f) == Amount(DefaultedSum(xs, f))
    decreases |xs|
  {
    if |xs| > 0 {
      var init := xs[..|xs| - 1];
      assert AllDefined(init, f) by {
        forall i | 0 <= i < |init| ensures !f(init[i]).Undefined? {
          assert init[i] == xs[i];
        }
      }
      StrictMatchesDefaulted(init, f);
    }
  }

  /** The defensive total of a concatenation is the sum of the totals. */
  lemma {:induction false} DefaultedSumAppend<T>(xs: seq<T>, ys: seq<T>, f: T -> Scalar<int>)
    ensures DefaultedSum(xs + ys, f) == DefaultedSum(xs, f) + DefaultedSum(ys, f)
    decreases |ys|
  {
    if |ys| > 0 {
      var ys' := ys[..|ys| - 1];
      assert (xs + ys)[..|xs + ys| - 1] == xs + ys';
      assert (xs + ys)[|xs + ys| - 1] == ys[|ys| - 1];
      DefaultedSumAppend(xs, ys', f);
    } else {
      assert xs + ys == xs;
    }
  }

  /** An item without an amount (`undefined` or `null`), inserted anywhere, leaves the defensive total unchanged. */
  lemma MissingAmountContributesZero<T>(xs: seq<T>, x: T, ys: seq<T>, f: T -> Scalar<int>)
    requires !f(x).Given?
    ensures DefaultedSum(xs + [x] + ys, f) == DefaultedSum(xs + ys, f)
  {
    DefaultedSumAppend(xs + [x], ys, f);
    DefaultedSumAppend(xs, ys, f);
    assert (xs + [x])[..|xs + [x]| - 1] == xs;
  }

  /** Appending one item adds its defaulted amount. */
  lemma DefaultedSumSnoc<T>(xs: seq<T>, x: T, f: T -> Scalar<int>)
    ensures DefaultedSum(xs + [x], f) == DefaultedSum(xs, f) + f(x).Or(0)
  {
    assert (xs + [x])[..|xs|] == xs;
  }

  /** An item in the middle of the list contributes its defaulted amount to the total. */
  lemma DefaultedSumMiddle<T>(a: seq<T>, x: T, b: seq<T>, f: T -> Scalar<int>)
    ensures DefaultedSum(a + [x] + b, f) == DefaultedSum(a + b, f) + f(x).Or(0)
  {
    DefaultedSumAppend(a + [x], b, f);
    DefaultedSumSnoc(a, x, f);
    DefaultedSumAppend(a, b, f);
  }

  /** Removing the same item from two lists with equal multisets leaves equal multisets. */
  lemma MultisetRemove<T>(xs: seq<T>, ys: seq<T>, k: nat)
    requires |xs| > 0 && k < |ys| && ys[k] == xs[|xs| - 1]
    requires multiset(xs) == multiset(ys)
    ensures multiset(xs[..|xs| - 1]) == multiset(ys[..k] + ys[k + 1..])
  {
    var init, last := xs[..|xs| - 1], xs[|xs| - 1];
    var a, b := ys[..k], ys[k + 1..];
    assert xs == init + [last];
    assert ys == a + [last] + b;
    calc {
      multiset(init) + multiset{last};
      multiset(xs);
      multiset(ys);
      multiset(a) + multiset{last} + multiset(b);
      multiset(a + b) + multiset{last};
    }
    assert multiset(init) == multiset(init) + multiset{last} - multiset{last};
    assert multiset(a + b) == multiset(a + b) + multiset{last} - multiset{last};
  }

  /** The defensive total does not depend on the order of the items. */
  lemma {:induction false} DefaultedSumPermutation<T>(xs: seq<T>, ys: seq<T>, f: T -> Scalar<int>)
    requires multiset(xs) == multiset(ys)
    ensures DefaultedSum(xs, f) == DefaultedSum(ys, f)
    decreases |xs|
  {
    if |xs| > 0 {
      var last := xs[|xs| - 1];
      assert last in multiset(ys);
      var k :| 0 <= k < |ys| && ys[k] == last;
      MultisetRemove(xs, ys, k);
      DefaultedSumPermutation(xs[..|xs| - 1], ys[..k] + ys[k + 1..], f);
      assert ys == ys[..k] + [last] + ys[k + 1..];
      DefaultedSumMiddle(ys[..k], last, ys[k + 1..], f);
    } else {
      assert ys == [] by { assert |multiset(ys)| == 0; }
    }
  }

  /** The strict total does not depend on the order of the items either. */
  lemma StrictSumPermutation<T>(xs: seq<T>, ys: seq<T>, f: T -> Scalar<int>)
    requires multiset(xs) == multiset(ys)
    ensures StrictSum(xs, f) == StrictSum(ys, f)
  {
    if AllDefined(xs, f) {
      assert AllDefined(ys, f) by {
        forall j | 0 <= j < |ys| ensures !f(ys[j]).Undefined? {
          assert ys[j] in multiset(xs);
        }
      }
      StrictMatchesDefaulted(xs, f);
      StrictMatchesDefaulted(ys, f);
      DefaultedSumPermutation(xs, ys, f);
    } else {
      var i :| 0 <= i < |xs| && f(xs[i]).Undefined?;
      assert xs[i] in multiset(ys);
    }
  }

  /**
   * A `null` amount, inserted anywhere, leaves the strict total as it was:
   * `sum + null` is `sum`, so only an `undefined` amount turns the total into NaN.
   */
  lemma NullAmountKeepsStrictSum<T>(xs: seq<T>, x: T, ys: seq<T>, f: T -> Scalar<int>)
    requires f(x).Null?
    ensures StrictSum(xs + [x] + ys, f) == StrictSum(xs + ys, f)
  {
    var with, without := xs + [x] + ys, xs + ys;
    if AllDefined(without, f) {
      assert AllDefined(with, f) by {
        forall i | 0 <= i < |with| ensures !f(with[i]).Undefined? {
          if i < |xs| {
            assert with[i] == without[i];
          } else if i > |xs| {
            assert with[i] == without[i - 1];
          }
        }
      }
      StrictMatchesDefaulted(with, f);
      StrictMatchesDefaulted(without, f);
      MissingAmountContributesZero(xs, x, ys, f);
    } else {
      var i :| 0 <= i < |without| && f(without[i]).Undefined?;
      if i < |xs| {
        assert with[i] == without[i];
      } else {
        assert with[i + 1] == without[i];
      }
    }
  }
}
