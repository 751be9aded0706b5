/** Binary operations on natural numbers. */
module Bits {
  function Pow2(k: nat): (p: nat)
    ensures p > 0
  {
    if k == 0 then 1 else 2 * Pow2(k - 1)
  }

  function Xor(a: nat, b: nat): nat
    decreases a + b
  {
    if a == 0 && b == 0 then 0 else 2 * Xor(a / 2, b / 2) + (a + b) % 2
  }

  function And(a: nat, b: nat): nat {
    if a == 0 then 0 else 2 * And(a / 2, b / 2) + (a % 2) * (b % 2)
  }

  function Shr(a: nat, k: nat): nat
    decreases k
  {
    if k == 0 then a else Shr(a / 2, k - 1)
  }

  lemma {:induction false} XorSymmetric(a: nat, b: nat)
    ensures Xor(a, b) == Xor(b, a)
    decreases a + b
  {
    if a != 0 || b != 0 { XorSymmetric(a / 2, b / 2); }
  }

  lemma {:induction false} XorZero(a: nat)
    ensures Xor(a, 0) == a
  {
    if a != 0 { XorZero(a / 2); }
  }

  lemma {:induction false} XorSelf(a: nat)
    ensures Xor(a, a) == 0
  {
    if a != 0 { XorSelf(a / 2); }
  }

  function Half(a: nat): nat { a / 2 }

  predicate Odd(a: nat) { a % 2 == 1 }

  lemma HalfXor(a: nat, b: nat)
    ensures Half(Xor(a, b)) == Xor(Half(a), Half(b)) && Odd(Xor(a, b)) == (Odd(a) != Odd(b))
  {
    var low := (a + b) % 2;
    assert low == if Odd(a) != Odd(b) then 1 else 0;
    assert Xor(a, b) == 2 * Xor(Half(a), Half(b)) + low;
  }

  lemma SameHalves(l: nat, r: nat)
    requires Half(l) == Half(r) && Odd(l) == Odd(r)
    ensures l == r
  {
  }

  lemma Smaller(a: nat, b: nat, c: nat)
    ensures a + b + c > 0 ==> Half(a) + Half(b) + Half(c) < a + b + c
    ensures a + b + c == 0 ==> Xor(Xor(a, b), c) == Xor(a, Xor(b, c))
  {
  }

  lemma {:induction false} XorAssociative(a: nat, b: nat, c: nat)
    ensures Xor(Xor(a, b), c) == Xor(a, Xor(b, c))
    decreases a + b + c
  {
    hide Xor, Half, Odd;
    Smaller(a, b, c);
    if a + b + c > 0 {
      HalfXor(a, b);
      HalfXor(b, c);
      HalfXor(Xor(a, b), c);
      HalfXor(a, Xor(b, c));
      XorAssociative(Half(a), Half(b), Half(c));
      SameHalves(Xor(Xor(a, b), c), Xor(a, Xor(b, c)));
    }
  }

  /** A value may be taken out of an xor again. */
  lemma XorCancel(a: nat, b: nat)
    ensures Xor(Xor(a, b), b) == a
  {
    XorAssociative(a, b, b);
    XorSelf(b);
    XorZero(a);
  }

  lemma {:induction false} ShrXor(a: nat, b: nat, k: nat)
    ensures Shr(Xor(a, b), k) == Xor(Shr(a, k), Shr(b, k))
    decreases k
  {
    if k > 0 {
      ShrXor(a / 2, b / 2, k - 1);
    }
  }

  lemma {:induction false} ShrShr(a: nat, j: nat, k: nat)
    ensures Shr(Shr(a, j), k) == Shr(a, j + k)
    decreases j
  {
    if j > 0 { ShrShr(a / 2, j - 1, k); }
  }

  lemma {:induction false} ShrAllOut(a: nat, j: nat, k: nat)
    requires a < Pow2(j) && j <= k
    ensures Shr(a, k) == 0
    decreases k
  {
    if k > 0 {
      if j == 0 { ShrAllOut(a / 2, 0, k - 1); } else { ShrAllOut(a / 2, j - 1, k - 1); }
    }
  }

  lemma {:induction false} ShrIsLess(a: nat, k: nat)
    ensures Shr(a, k) <= a
    decreases k
  {
    if k > 0 { ShrIsLess(a / 2, k - 1); }
  }

  lemma {:induction false} XorBound(a: nat, b: nat, k: nat)
    requires a < Pow2(k) && b < Pow2(k)
    ensures Xor(a, b) < Pow2(k)
    decreases k
  {
    if k > 0 { XorBound(a / 2, b / 2, k - 1); }
  }

  /** Masking with all ones is the remainder modulo the power of two. */
  lemma {:induction false} AndMask(a: nat, k: nat)
    ensures And(a, Pow2(k) - 1) == a % Pow2(k)
    decreases k
  {
    if a == 0 {
    } else if k == 0 {
      AndZero(a / 2);
    } else {
      AndMask(a / 2, k - 1);
      var p := Pow2(k - 1);
      assert (2 * p - 1) / 2 == p - 1 && (2 * p - 1) % 2 == 1;
      DoubleMod(a, p);
    }
  }

  lemma {:induction false} AndZero(a: nat)
    ensures And(a, 0) == 0
  {
    if a != 0 { AndZero(a / 2); }
  }

  lemma DoubleMod(a: nat, p: nat)
    requires p > 0
    ensures a % (2 * p) == 2 * ((a / 2) % p) + a % 2
  {
    var q, r := (a / 2) / p, (a / 2) % p;
    assert a == 2 * (p * q + r) + a % 2 == (2 * p) * q + (2 * r + a % 2);
    ModIs(a, 2 * p, q, 2 * r + a % 2);
  }

  lemma ModIs(a: int, m: nat, q: int, r: nat)
    requires 0 <= r < m && a == m * q + r
    ensures a % m == r && a / m == q
  {
    assert m * (a / m) + a % m == a;
    assert m * (a / m - q) == r - a % m;
    Multiple(m, a / m - q);
  }

  lemma AddMultiple(x: int, m: nat, q: int)
    requires m > 0
    ensures (x + m * q) % m == x % m
  {
    assert x == m * (x / m) + x % m;
    assert m * (x / m) + m * q == m * (x / m + q);
    ModIs(x + m * q, m, x / m + q, x % m);
  }

  /** Reducing a factor does not change the remainder of a product. */
  lemma MulMod(a: int, b: int, m: nat)
    requires m > 0
    ensures ((a % m) * b) % m == (a * b) % m
  {
    assert a == m * (a / m) + a % m;
    assert a * b == (a % m) * b + m * ((a / m) * b) by {
      assert (m * (a / m)) * b == m * ((a / m) * b);
    }
    AddMultiple((a % m) * b, m, (a / m) * b);
  }

  lemma AddMod(a: int, b: int, m: nat)
    requires m > 0
    ensures ((a % m) + b) % m == (a + b) % m
  {
    assert a == m * (a / m) + a % m;
    AddMultiple(a % m + b, m, a / m);
  }

  lemma Multiple(m: nat, d: int)
    ensures d >= 1 ==> m * d >= m
    ensures d <= -1 ==> m * d + m <= 0
  {
  }
}
