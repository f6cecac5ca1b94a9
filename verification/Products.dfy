/** Laws of integer products, one at a time. */
module Products {
  lemma ProductNext(a: int, n: int)
    ensures (a + 1) * n == a * n + n
  {
  }

  lemma ProductDifference(a: int, b: int, n: int)
    ensures b * n - a * n == (b - a) * n
  {
  }

  lemma ProductNonNegative(a: nat, n: nat)
    ensures a * n >= 0
  {
  }

  lemma ProductGrows(a: int, b: int, n: nat)
    requires a <= b
    ensures a * n <= b * n
  {
    ProductDifference(a, b, n);
    ProductNonNegative(b - a, n);
  }
}
