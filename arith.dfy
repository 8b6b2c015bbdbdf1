/** Facts about integer multiplication, division and remainder used by the index arithmetic of
    numpy's row-major reshape and of tile grids. */
module Arith {

  lemma MulMonotone(a: int, b: int, c: nat)
    requires a <= b
    ensures a * c <= b * c
  {
  }

  lemma MulPositive(a: nat, b: nat)
    requires a * b > 0
    ensures a > 0 && b > 0
  {
  }

  /** Euclidean division is determined by quotient and remainder. */
  lemma DivModUnique(a: int, b: int, q: int, r: int)
    requires b > 0 && 0 <= r < b && a == q * b + r
    ensures a / b == q && a % b == r
  {
    var q', r' := a / b, a % b;
    assert (q - q') * b == r' - r;
    if q > q' {
      MulMonotone(1, q - q', b);
    } else if q < q' {
      MulMonotone(1, q' - q, b);
    }
  }

  /** The row-major position `i * n + j` of cell (i, j) in an array with rows of length n. */
  lemma RowMajor(i: nat, j: nat, n: nat)
    requires j < n
    ensures (i * n + j) / n == i && (i * n + j) % n == j
  {
    DivModUnique(i * n + j, n, i, j);
  }

  /** Cell (i, j) of an m-by-n array lies inside its m * n cells. */
  lemma RowMajorBound(i: nat, j: nat, m: nat, n: nat)
    requires i < m && j < n
    ensures 0 <= i * n + j < m * n
  {
    MulMonotone(i + 1, m, n);
  }

  /** Position k of an m * n array is cell (k / n, k % n). */
  lemma RowMajorInverse(k: nat, m: nat, n: nat)
    requires k < m * n
    ensures n > 0 && k / n < m && k % n < n && (k / n) * n + k % n == k
  {
    MulPositive(m, n);
    if k / n >= m {
      MulMonotone(m, k / n, n);
    }
  }

  /** Block i of m blocks of length n, `[i * n, i * n + n)`, lies inside the m * n cells. */
  lemma BlockFits(i: nat, m: nat, n: nat)
    requires i < m
    ensures 0 <= i * n && i * n + n <= m * n
  {
    MulMonotone(i + 1, m, n);
  }
}
