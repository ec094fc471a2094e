/** Powers of two and rounding, as block sizes and alignments need them. */
module Powers {
  predicate IsPowerOfTwo(n: int) {
    n == 1 || (n > 1 && n % 2 == 0 && IsPowerOfTwo(n / 2))
  }

  function NextPowerOfTwo(n: nat): (p: nat)
    ensures IsPowerOfTwo(p) && n <= p && (n > 0 ==> p < 2 * n)
  {
    if n <= 1 then 1 else 2 * NextPowerOfTwo((n + 1) / 2)
  }

  /** Between a power of two and its double there is no other. */
  lemma {:induction false} PowersAreFarApart(a: int, b: int)
    requires IsPowerOfTwo(a) && IsPowerOfTwo(b) && a < b
    ensures 2 * a <= b
  {
    if a > 1 {
      PowersAreFarApart(a / 2, b / 2);
    }
  }

  lemma {:induction false} NextPowerIsLeast(n: nat, q: int)
    requires IsPowerOfTwo(q) && n <= q
    ensures NextPowerOfTwo(n) <= q
  {
    if q < NextPowerOfTwo(n) {
      PowersAreFarApart(q, NextPowerOfTwo(n));
    }
  }

  /** The smaller of two powers of two divides the larger. */
  lemma {:induction false} SmallerDivides(a: int, b: int, k: int)
    requires IsPowerOfTwo(a) && IsPowerOfTwo(b) && a <= b && k % b == 0
    ensures k % a == 0
  {
    if a > 1 {
      assert k % 2 == 0 && (k / 2) % (b / 2) == 0 by {
        assert k == b * (k / b) == 2 * (b / 2 * (k / b));
        MultipleOf(k / b, b / 2);
      }
      SmallerDivides(a / 2, b / 2, k / 2);
      var m := k / 2 / (a / 2);
      assert k == a * m;
      MultipleOf(m, a);
    }
  }

  lemma MultipleOf(m: int, d: int)
    requires d > 0
    ensures (d * m) % d == 0
  {
    DivUnique(d * m, d, m);
  }

  lemma DivUnique(n: int, d: int, m: int)
    requires d > 0 && n == d * m
    ensures n % d == 0
  {
    var q, r := n / d, n % d;
    assert n == d * q + r && 0 <= r < d;
    assert r == d * (m - q);
    ProductIsLarge(d, m - q);
  }

  lemma ProductIsLarge(d: int, k: int)
    requires d > 0
    ensures k >= 1 ==> d * k >= d
    ensures k <= -1 ==> d * k <= -d
  {
  }

  /** Rounds an address down to a multiple of `unit`. */
  function AlignDown(addr: int, unit: nat): (r: int)
    requires unit > 0
    ensures r % unit == 0 && r <= addr < r + unit
  {
    assert (addr - addr % unit) % unit == 0 by {
      DivUnique(addr - addr % unit, unit, addr / unit);
    }
    addr - addr % unit
  }
}
