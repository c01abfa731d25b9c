/** Priority keys (crates/app/mempool/src/traits.rs). */
module Ordering {
  import opened Types

  /** Higher gas price first; for the same price, lower nonce first. */
  datatype GasPriceOrdering = GasPriceOrdering(gasPrice: nat, nonce: U64)

  function GasPriceAtMost(a: GasPriceOrdering, b: GasPriceOrdering): bool {
    if a.gasPrice != b.gasPrice then a.gasPrice < b.gasPrice else b.nonce <= a.nonce
  }

  /** Older timestamps first. */
  datatype FifoOrdering = FifoOrdering(timestamp: U64)

  function FifoAtMost(a: FifoOrdering, b: FifoOrdering): bool {
    b.timestamp <= a.timestamp
  }

  ghost predicate TotalOrder<K(!new)>(leq: (K, K) -> bool) {
    && (forall a, b :: leq(a, b) || leq(b, a))
    && (forall a, b :: leq(a, b) && leq(b, a) ==> a == b)
    && (forall a, b, c :: leq(a, b) && leq(b, c) ==> leq(a, c))
  }

  lemma OrderingsAreTotal()
    ensures TotalOrder(GasPriceAtMost) && TotalOrder(FifoAtMost)
  {
  }

  ghost predicate TotalPreorder<T(!new)>(leq: (T, T) -> bool) {
    && (forall a, b :: leq(a, b) || leq(b, a))
    && (forall a, b, c :: leq(a, b) && leq(b, c) ==> leq(a, c))
  }

  ghost predicate IsGreatest<T(!new)>(s: set<T>, leq: (T, T) -> bool, g: T) {
    g in s && forall x :: x in s ==> leq(x, g)
  }

  lemma {:induction false} GreatestExists<T(!new)>(s: set<T>, leq: (T, T) -> bool)
    requires s != {} && TotalPreorder(leq)
    ensures exists g :: IsGreatest(s, leq, g)
    decreases |s|
  {
    var x :| x in s;
    var rest := s - {x};
    assert leq(x, x);
    if rest == {} {
      assert s == {x};
      assert IsGreatest(s, leq, x);
    } else {
      GreatestExists(rest, leq);
      var g :| IsGreatest(rest, leq, g);
      assert forall y :: y in s ==> y == x || y in rest;
      assert IsGreatest(s, leq, if leq(x, g) then g else x);
    }
  }
}
