/** Facts about quotients and remainders that several modules need. */
module Arithmetic {

  lemma Times(n: nat, k: nat)
    requires k > 0
    ensures n <= n * k && (n > 0 ==> k <= n * k)
  {
  }

  /** Positions in different groups, or at different places in a group, differ. */
  lemma SlotsApart(width: nat, i: nat, k: nat, i': nat, k': nat)
    requires k < width && k' < width && (i != i' || k != k')
    ensures i * width + k != i' * width + k'
  {
    if i < i' {
      Times(i' - i, width);
      assert i' * width == i * width + (i' - i) * width;
    } else if i' < i {
      Times(i - i', width);
      assert i * width == i' * width + (i - i') * width;
    }
  }

  lemma OneMore(k: nat, n: nat)
    ensures k * (n + 1) == k * n + k
  {
  }

  lemma Divided(n: nat, k: nat)
    requires k > 0
    ensures n == k * (n / k) + n % k && n / k <= n
  {
    Times(n / k, k);
  }

  lemma DivideBack(d: nat, k: nat, v: nat)
    requires d < k
    ensures (d + k * v) / k == v && (d + k * v) % k == d
  {
    var n := d + k * v;
    if n / k != v || n % k != d {
      SlotsApart(k, n / k, n % k, v, d);
    }
  }
}
