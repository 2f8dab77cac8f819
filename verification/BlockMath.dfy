/**
 Arithmetic of fixed-size blocks. `Span` and `Whole` are recursive forms of `n * size` and
 `len % size == 0`, connected to the operators below.
 */
module BlockMath {

  type pos = n: nat | n > 0 witness 1

  /** n * size. */
  function Span(n: nat, size: nat): nat {
    if n == 0 then 0 else Span(n - 1, size) + size
  }

  /** len % size == 0. */
  predicate Whole(len: nat, size: nat)
    requires size > 0
  {
    len == 0 || (size <= len && Whole(len - size, size))
  }

  /** Distance from len up to the next whole number of blocks. */
  function PadLength(len: nat, size: nat): (n: nat)
    requires size > 0
    ensures n < size && Whole(len + n, size)
    decreases len
  {
    if len == 0 then 0 else if len <= size then size - len else PadLength(len - size, size)
  }

  function NumBlocks(len: nat, size: nat): nat
    requires size > 0
  {
    (len + size - 1) / size
  }

  lemma {:induction false} SpanIsProduct(n: nat, size: nat)
    ensures Span(n, size) == n * size
  {
    if n > 0 {
      SpanIsProduct(n - 1, size);
      assert n * size == (n - 1) * size + size;
    }
  }

  lemma {:induction false} SpanAdd(m: nat, n: nat, size: nat)
    ensures Span(m + n, size) == Span(m, size) + Span(n, size)
  {
    if n > 0 { SpanAdd(m, n - 1, size); }
  }

  lemma {:induction false} SpanMonotone(m: nat, n: nat, size: nat)
    requires m <= n
    ensures Span(m, size) <= Span(n, size)
  {
    if m < n { SpanMonotone(m, n - 1, size); }
  }

  lemma SpanBelow(m: nat, n: nat, size: nat)
    requires Span(m, size) < Span(n, size)
    ensures m < n && Span(m, size) + size <= Span(n, size)
  {
    if n <= m { SpanMonotone(n, m, size); }
    SpanMonotone(m + 1, n, size);
  }

  lemma {:induction false} SpanWhole(n: nat, size: nat)
    requires size > 0
    ensures Whole(Span(n, size), size)
  {
    if n > 0 { SpanWhole(n - 1, size); }
  }

  lemma {:induction false} SpanInjective(a: nat, b: nat, size: nat)
    requires size > 0 && Span(a, size) == Span(b, size)
    ensures a == b
  {
    if a > 0 && b > 0 { SpanInjective(a - 1, b - 1, size); }
  }

  lemma RemainderUnique(a: nat, q: nat, r: nat, size: nat)
    requires r < size && a == q * size + r
    ensures a % size == r && a / size == q
  {
    var d := q - a / size;
    assert a == size * (a / size) + a % size;
    assert d * size == a % size - r;
    assert d >= 1 ==> d * size >= size;
    assert d <= -1 ==> d * size + size <= 0;
  }

  lemma {:induction false} WholeIsMod(len: nat, size: nat)
    requires size > 0
    ensures Whole(len, size) <==> len % size == 0
  {
    if 0 < len < size {
      RemainderUnique(len, 0, len, size);
    } else if size <= len {
      WholeIsMod(len - size, size);
      var q, r := (len - size) / size, (len - size) % size;
      assert len == (q + 1) * size + r;
      RemainderUnique(len, q + 1, r, size);
    }
  }

  lemma {:induction false} WholeAdd(a: nat, b: nat, size: nat)
    requires size > 0 && Whole(a, size)
    ensures Whole(a + b, size) <==> Whole(b, size)
  {
    if a > 0 { WholeAdd(a - size, b, size); }
  }

  lemma {:induction false} PadLengthAdd(a: nat, b: nat, size: nat)
    requires size > 0 && Whole(a, size)
    ensures PadLength(a + b, size) == PadLength(b, size)
  {
    if a > 0 { PadLengthAdd(a - size, b, size); }
  }

  lemma {:induction false} WholePad(len: nat, size: nat)
    requires size > 0 && Whole(len, size)
    ensures PadLength(len, size) == 0
  {
    if len > 0 { WholePad(len - size, size); }
  }

  /** Padding goes to the least whole number of blocks that is long enough. */
  lemma {:induction false} PadLengthMinimal(len: nat, total: nat, size: nat)
    requires size > 0 && len <= total && Whole(total, size)
    ensures len + PadLength(len, size) <= total
  {
    if len > size { PadLengthMinimal(len - size, total - size, size); }
  }

  /** The rounding-up division of the code counts exactly the padded blocks. */
  lemma {:induction false} NumBlocksPad(len: nat, size: nat)
    requires size > 0
    ensures Span(NumBlocks(len, size), size) == len + PadLength(len, size)
  {
    if len == 0 {
      RemainderUnique(size - 1, 0, size - 1, size);
    } else if len <= size {
      RemainderUnique(len + size - 1, 1, len - 1, size);
      assert Span(1, size) == Span(0, size) + size;
    } else {
      NumBlocksPad(len - size, size);
      QuotientStep(len - 1, size);
      assert NumBlocks(len, size) == NumBlocks(len - size, size) + 1;
    }
  }

  lemma QuotientStep(a: nat, size: nat)
    requires size > 0
    ensures (a + size) / size == a / size + 1
  {
    var q, r := a / size, a % size;
    assert a + size == (q + 1) * size + r;
    RemainderUnique(a + size, q + 1, r, size);
  }

  /** Floor division counts the blocks that fit. */
  lemma {:induction false} QuotientSpan(a: nat, size: nat)
    requires size > 0
    ensures Span(a / size, size) <= a < Span(a / size, size) + size
    decreases a
  {
    if a < size {
      RemainderUnique(a, 0, a, size);
    } else {
      QuotientSpan(a - size, size);
      QuotientStep(a - size, size);
    }
  }

  /** First position of the block that holds position i. */
  function BlockStart(i: nat, size: nat): (lo: nat)
    requires size > 0
    ensures lo <= i < lo + size && Whole(lo, size)
  {
    QuotientSpan(i, size);
    SpanWhole(i / size, size);
    Span(i / size, size)
  }

  lemma {:induction false} WholeGap(a: nat, b: nat, size: nat)
    requires size > 0 && Whole(a, size) && Whole(b, size) && a < b
    ensures a + size <= b
  {
    if a > 0 { WholeGap(a - size, b - size, size); }
  }

  /** Dividing a whole number of blocks by the block size counts them. */
  lemma {:induction false} WholeQuotient(len: nat, size: nat)
    requires size > 0 && Whole(len, size)
    ensures Span(len / size, size) == len
  {
    if len > 0 {
      WholeQuotient(len - size, size);
      var q := (len - size) / size;
      SpanIsProduct(q, size);
      RemainderUnique(len, q + 1, 0, size);
    } else {
      RemainderUnique(0, 0, 0, size);
    }
  }

  /** Blocks of one size made of blocks of a smaller size. */
  lemma {:induction false} WholeNested(len: nat, big: nat, small: nat)
    requires small > 0 && big > 0 && Whole(big, small) && Whole(len, big)
    ensures Whole(len, small)
  {
    if len > 0 {
      WholeNested(len - big, big, small);
      WholeAdd(big, len - big, small);
    }
  }
}
