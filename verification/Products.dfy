/** What products of natural numbers keep of the order of their factors. */
module Products {

  lemma MulMonotone(c: nat, a: nat, b: nat)
    requires a <= b
    ensures c * a <= c * b
  {
  }

  lemma MulCancel(d: nat, a: nat, b: nat)
    requires a * d < b * d
    ensures a < b
  {
    if b <= a {
      MulMonotone(d, b, a);
    }
  }

  lemma DivideBound(n: nat, d: nat, total: nat)
    requires d >= 1 && n * d <= total
    ensures n <= total / d
  {
    var q: nat := total / d;
    assert total < (q + 1) * d;
    MulCancel(d, n, q + 1);
  }
}
