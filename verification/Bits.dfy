/** Unsigned machine arithmetic: `&`, `|` and wrap-around on natural numbers, and what the
    ring buffer's masks compute when the page count is a power of two. */
module Bits {

  const U32: nat := 0x1_0000_0000

  function Pow2(k: nat): (p: nat)
    ensures p >= 1
  {
    if k == 0 then 1 else 2 * Pow2(k - 1)
  }

  function And(a: nat, b: nat): nat {
    if a == 0 || b == 0 then 0
    else 2 * And(a / 2, b / 2) + (if a % 2 == 1 && b % 2 == 1 then 1 else 0)
  }

  function Or(a: nat, b: nat): nat
    decreases a + b
  {
    if a == 0 then b
    else if b == 0 then a
    else 2 * Or(a / 2, b / 2) + (if a % 2 == 1 || b % 2 == 1 then 1 else 0)
  }

  /** The kernel's is_power_of_2. */
  predicate IsPowerOf2(n: nat) {
    n != 0 && And(n, n - 1) == 0
  }

  lemma ModIs(x: nat, n: nat, d: nat, r: nat)
    requires r < n && x == n * d + r
    ensures x % n == r && x / n == d
  {
    var z := x / n - d;
    assert n * z == r - x % n;
    MulSpread(n, z);
  }

  lemma MulSpread(n: nat, z: int)
    ensures z >= 1 ==> n * z >= n
    ensures z <= -1 ==> n * z <= 0 - n
  {
  }

  /** Splitting off the lowest bit. */
  lemma Halve(x: nat, half: nat)
    requires half > 0
    ensures x % (2 * half) == 2 * (x / 2 % half) + x % 2
    ensures x / (2 * half) == x / 2 / half
  {
    var q, r := x / 2 / half, x / 2 % half;
    assert x / 2 == half * q + r;
    assert x == (2 * half) * q + (2 * r + x % 2);
    ModIs(x, 2 * half, q, 2 * r + x % 2);
  }

  lemma {:induction false} Pow2Sum(a: nat, b: nat)
    ensures Pow2(a + b) == Pow2(a) * Pow2(b)
  {
    if a != 0 {
      Pow2Sum(a - 1, b);
      assert Pow2(a + b) == 2 * Pow2(a - 1 + b);
    }
  }

  lemma Pow2Values()
    ensures Pow2(10) == 1024 && Pow2(12) == 4096 && Pow2(32) == U32
  {
    assert Pow2(4) == 16;
    Pow2Sum(4, 4);
    Pow2Sum(8, 2);
    Pow2Sum(8, 4);
    Pow2Sum(8, 8);
    Pow2Sum(16, 16);
  }

  lemma {:induction false} Pow2Strict(a: nat, b: nat)
    ensures a < b <==> Pow2(a) < Pow2(b)
    ensures a == b <==> Pow2(a) == Pow2(b)
    decreases a + b
  {
    if a != 0 && b != 0 {
      Pow2Strict(a - 1, b - 1);
    }
  }

  /** Masking with 2^k - 1 is reduction modulo 2^k. */
  lemma {:induction false} AndMask(x: nat, k: nat)
    ensures And(x, Pow2(k) - 1) == x % Pow2(k)
  {
    hide And;
    if k == 0 {
      AndZero(x);
    } else {
      var half := Pow2(k - 1);
      AndMask(x / 2, k - 1);
      Halve(x, half);
      LowOnes(half);
      AndStep(x, 2 * half - 1);
    }
  }

  lemma AndZero(x: nat)
    ensures And(x, 0) == 0
  {
  }

  lemma LowOnes(half: nat)
    requires half > 0
    ensures (2 * half - 1) / 2 == half - 1 && (2 * half - 1) % 2 == 1
  {
  }

  lemma AndStep(a: nat, b: nat)
    ensures And(a, b) == 2 * And(a / 2, b / 2) + (if a % 2 == 1 && b % 2 == 1 then 1 else 0)
  {
    if a == 0 || b == 0 {
      assert And(a / 2, b / 2) == 0;
    }
  }

  /** Masking with a multiple of 2^k masks the quotient and clears the low bits. */
  lemma {:induction false} AndShifted(q: nat, r: nat, m: nat, k: nat)
    requires r < Pow2(k)
    ensures And(q * Pow2(k) + r, m * Pow2(k)) == And(q, m) * Pow2(k)
  {
    if k == 0 {
      assert q * Pow2(k) + r == q && m * Pow2(k) == m && And(q, m) * Pow2(k) == And(q, m);
    } else {
      var half := Pow2(k - 1);
      TwiceTimes(q, half);
      TwiceTimes(m, half);
      TwiceTimes(And(q, m), half);
      var x, y := q * half, m * half;
      AndStep(2 * x + r, 2 * y);
      assert (2 * x + r) / 2 == x + r / 2;
      AndShifted(q, r / 2, m, k - 1);
    }
  }

  lemma TwiceTimes(m: nat, half: nat)
    ensures m * (2 * half) == 2 * (m * half)
  {
  }

  /** Filling in the low k bits below a multiple of 2^k. */
  lemma {:induction false} OrLow(y: nat, k: nat)
    requires y % Pow2(k) == 0
    ensures Or(y, Pow2(k) - 1) == y + Pow2(k) - 1
  {
    hide Or;
    if k == 0 {
      OrStep(y, 0);
      OrZero(y);
    } else {
      var half := Pow2(k - 1);
      LowPart(y, half);
      LowOnes(half);
      OrLow(y / 2, k - 1);
      OrStep(y, 2 * half - 1);
    }
  }

  lemma OrZero(y: nat)
    ensures Or(y, 0) == y
  {
  }

  lemma LowPart(y: nat, half: nat)
    requires half > 0 && y % (2 * half) == 0
    ensures y % 2 == 0 && y / 2 % half == 0
  {
    var q := y / (2 * half);
    assert y == 2 * half * q;
    TwiceTimes(q, half);
    assert y == 2 * (q * half) && y / 2 == half * q + 0;
    ModIs(y / 2, half, q, 0);
  }

  lemma OrStep(a: nat, b: nat)
    ensures Or(a, b) == 2 * Or(a / 2, b / 2) + (if a % 2 == 1 || b % 2 == 1 then 1 else 0)
  {
  }

  lemma {:induction false} AndSelfPred(n: nat)
    requires IsPowerOf2(n)
    ensures exists j: nat :: n == Pow2(j)
  {
    if n == 1 {
      assert n == Pow2(0);
    } else if n % 2 == 1 {
      assert And(n / 2, n / 2) == 0 by { assert (n - 1) / 2 == n / 2; }
      AndSelf(n / 2);
      assert false;
    } else {
      assert (n - 1) / 2 == n / 2 - 1;
      AndSelfPred(n / 2);
      var j: nat :| n / 2 == Pow2(j);
      assert n == Pow2(j + 1);
    }
  }

  lemma {:induction false} AndSelf(n: nat)
    ensures And(n, n) == n
  {
    if n != 0 {
      AndSelf(n / 2);
    }
  }

  /** The bit trick accepts exactly the powers of two. */
  lemma PowerOf2Test(n: nat)
    ensures IsPowerOf2(n) <==> exists j: nat :: n == Pow2(j)
  {
    if IsPowerOf2(n) {
      AndSelfPred(n);
    }
    if j: nat :| n == Pow2(j) {
      AndMask(n, j);
      assert n % n == 0;
    }
  }
}
