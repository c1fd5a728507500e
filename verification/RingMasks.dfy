/** The bit masks of driver/rb.c and tool/src/rb.c on 32-bit unsigned values, against the
    arithmetic they stand for. Everything rests on the page count being a power of two. */
module RingMasks {
  import opened Bits
  import opened RingSpec

  const MAX_PAGES: nat := 1024

  /** The page counts `smon_mmap` and `smon_create_rb` let through. */
  predicate PageCount(n: nat) {
    2 <= n <= MAX_PAGES && IsPowerOf2(n)
  }

  lemma Pow2One()
    ensures Pow2(0) == 1 && Pow2(1) == 2
  {
  }

  lemma PageCounts(n: nat)
    ensures PageCount(n) <==> exists j: nat :: 1 <= j <= 10 && n == Pow2(j)
  {
    hide And, Pow2, IsPowerOf2;
    PowerOf2Test(n);
    Pow2Values();
    Pow2One();
    forall j: nat | n == Pow2(j)
      ensures 2 <= n <= MAX_PAGES <==> 1 <= j <= 10
    {
      Pow2Strict(0, j);
      Pow2Strict(10, j);
    }
  }

  lemma PageExponent(n: nat) returns (j: nat)
    requires PageCount(n)
    ensures 1 <= j <= 10 && n == Pow2(j) && n * PAGE == Pow2(j + 12)
    ensures Geometry(n * PAGE) && n * PAGE <= 0x40_0000
  {
    hide And;
    PowerOf2Test(n);
    j :| n == Pow2(j);
    Pow2Values();
    Pow2Strict(10, j);
    Pow2Sum(j, 12);
  }

  /** `(head - tail) & (size - 1)`, the subtraction wrapping at 32 bits. */
  lemma CountMask(head: nat, tail: nat, n: nat)
    requires PageCount(n) && head < n * PAGE && tail < n * PAGE
    ensures And((head - tail) % U32, n * PAGE - 1) == Gap(tail, head, n * PAGE)
  {
    var j := PageExponent(n);
    WrapMask(head - tail, j + 12);
  }

  /** `(tail - (head + 1)) & (size - 1)`. */
  lemma SpaceMask(head: nat, tail: nat, n: nat)
    requires PageCount(n) && head < n * PAGE && tail < n * PAGE
    ensures And((tail - (head + 1)) % U32, n * PAGE - 1) == n * PAGE - 1 - Gap(tail, head, n * PAGE)
    ensures And((head - tail) % U32, n * PAGE - 1) + And((tail - (head + 1)) % U32, n * PAGE - 1) == n * PAGE - 1
  {
    var j := PageExponent(n);
    WrapMask(tail - (head + 1), j + 12);
    CountMask(head, tail, n);
  }

  /** A difference that wrapped at 2^32 is still right modulo a smaller power of two. */
  lemma WrapMask(d: int, k: nat)
    requires k <= 32 && 0 - Pow2(k) <= d < Pow2(k)
    ensures And(d % U32, Pow2(k) - 1) == if d < 0 then d + Pow2(k) else d
  {
    hide And, Pow2;
    Pow2Values();
    Pow2Strict(32, k);
    AndMask(d % U32, k);
    if d < 0 {
      Pow2Sum(k, 32 - k);
      WrapNegative(d, Pow2(k), Pow2(32 - k));
    } else {
      OnceRound(d, Pow2(k));
    }
  }

  lemma WrapNegative(d: int, size: nat, q: nat)
    requires size * q == U32 && 0 - size <= d < 0 && size <= U32 && q >= 1
    ensures d % U32 % size == d + size
  {
    assert d % U32 == d + U32;
    var rest := size * (q - 1);
    assert rest == U32 - size;
    ModIs(d + U32, size, q - 1, d + size);
  }

  lemma OnceRound(x: nat, n: nat)
    requires n > 0 && x < 2 * n
    ensures x % n == if x < n then x else x - n
  {
    if x < n {
      ModIs(x, n, 0, x);
    } else {
      ModIs(x, n, 1, x - n);
    }
  }

  /** HEAD_TRIM_PAGE keeps a position that ran up to the end inside the ring. */
  lemma TrimMask(p: nat, k: nat, n: nat)
    requires PageCount(n) && p < n * PAGE && k <= n * PAGE
    ensures And(p + k, Or((n - 1) * PAGE, PAGE - 1)) == Fwd(p, k, n * PAGE)
  {
    hide And, Or, Pow2;
    var j := PageExponent(n);
    Pow2Values();
    OrLow((n - 1) * PAGE, 12);
    AndMask(p + k, j + 12);
    OnceRound(p + k, n * PAGE);
  }

  lemma OffsetMask(p: nat)
    ensures And(p, PAGE - 1) == p % PAGE
  {
    Pow2Values();
    AndMask(p, 12);
  }

  /** The kernel's next page start, `((page + 1) & (n - 1)) << PAGE_SHIFT`. */
  lemma NextPageMask(p: nat, n: nat)
    requires PageCount(n) && Position(p, n * PAGE)
    ensures And(p / PAGE + 1, n - 1) * PAGE == Fwd(p, PageSpace(p), n * PAGE)
  {
    hide And, Pow2;
    var j := PageExponent(n);
    var page := p / PAGE;
    AndMask(page + 1, j);
    assert page < n;
    OnceRound(page + 1, n);
  }

  /** The tool's, `(tail + PAGE_SIZE) & ((n - 1) << PAGE_SHIFT)`: the same place. */
  lemma PageNextMask(p: nat, n: nat)
    requires PageCount(n) && Position(p, n * PAGE)
    ensures And(p + PAGE, (n - 1) * PAGE) == Fwd(p, PageSpace(p), n * PAGE)
  {
    hide And, Pow2, Fwd;
    var page := p / PAGE;
    Pow2Values();
    assert p + PAGE == (page + 1) * PAGE + p % PAGE;
    AndShifted(page + 1, p % PAGE, n - 1, 12);
    NextPageMask(p, n);
  }
}
