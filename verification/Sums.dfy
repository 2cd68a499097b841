/** Finite sums and dot products of reals over an integer range, for the linear-algebra modules. */
module Sums {

  function Sum(f: int -> real, lo: int, hi: int): real
    decreases hi - lo
  {
    if hi <= lo then 0.0 else Sum(f, lo, hi - 1) + f(hi - 1)
  }

  lemma {:induction false} SumExt(f: int -> real, g: int -> real, lo: int, hi: int)
    requires forall i :: lo <= i < hi ==> f(i) == g(i)
    ensures Sum(f, lo, hi) == Sum(g, lo, hi)
    decreases hi - lo
  {
    if lo < hi { SumExt(f, g, lo, hi - 1); }
  }

  function Dot(f: int -> real, g: int -> real, lo: int, hi: int): real {
    Sum(i => f(i) * g(i), lo, hi)
  }

  lemma DotLast(f: int -> real, g: int -> real, lo: int, hi: int)
    ensures hi <= lo ==> Dot(f, g, lo, hi) == 0.0
    ensures lo < hi ==> Dot(f, g, lo, hi) == Dot(f, g, lo, hi - 1) + f(hi - 1) * g(hi - 1)
  {
  }

  lemma {:induction false} DotExt(f: int -> real, g: int -> real, f': int -> real, g': int -> real, lo: int, hi: int)
    requires forall i :: lo <= i < hi ==> f(i) == f'(i)
    requires forall i :: lo <= i < hi ==> g(i) == g'(i)
    ensures Dot(f, g, lo, hi) == Dot(f', g', lo, hi)
    decreases hi - lo
  {
    hide Dot, Sum;
    DotLast(f, g, lo, hi);
    DotLast(f', g', lo, hi);
    if lo < hi { DotExt(f, g, f', g', lo, hi - 1); }
  }

  lemma {:induction false} DotComm(f: int -> real, g: int -> real, lo: int, hi: int)
    ensures Dot(f, g, lo, hi) == Dot(g, f, lo, hi)
    decreases hi - lo
  {
    hide Dot, Sum;
    DotLast(f, g, lo, hi);
    DotLast(g, f, lo, hi);
    if lo < hi { DotComm(f, g, lo, hi - 1); }
  }

  lemma {:induction false} DotZero(f: int -> real, g: int -> real, lo: int, hi: int)
    requires forall i :: lo <= i < hi ==> f(i) == 0.0
    ensures Dot(f, g, lo, hi) == 0.0
    decreases hi - lo
  {
    hide Dot, Sum;
    DotLast(f, g, lo, hi);
    if lo < hi { DotZero(f, g, lo, hi - 1); }
  }

  lemma {:induction false} DotScale(h: int -> real, c: real, f: int -> real, g: int -> real, lo: int, hi: int)
    requires forall i :: lo <= i < hi ==> h(i) == c * f(i)
    ensures Dot(h, g, lo, hi) == c * Dot(f, g, lo, hi)
    decreases hi - lo
  {
    hide Dot, Sum;
    DotLast(h, g, lo, hi);
    DotLast(f, g, lo, hi);
    if lo < hi {
      DotScale(h, c, f, g, lo, hi - 1);
      ScaleStep(h(hi - 1), c, f(hi - 1), g(hi - 1), Dot(f, g, lo, hi - 1));
    }
  }

  lemma ScaleStep(h: real, c: real, f: real, g: real, rest: real)
    requires h == c * f
    ensures c * rest + h * g == c * (rest + f * g)
  {
    assert h * g == c * (f * g);
  }

  lemma {:induction false} DotAdd(h: int -> real, f: int -> real, f': int -> real, g: int -> real, lo: int, hi: int)
    requires forall i :: lo <= i < hi ==> h(i) == f(i) + f'(i)
    ensures Dot(h, g, lo, hi) == Dot(f, g, lo, hi) + Dot(f', g, lo, hi)
    decreases hi - lo
  {
    hide Dot, Sum;
    DotLast(h, g, lo, hi);
    DotLast(f, g, lo, hi);
    DotLast(f', g, lo, hi);
    if lo < hi {
      DotAdd(h, f, f', g, lo, hi - 1);
      assert h(hi - 1) * g(hi - 1) == f(hi - 1) * g(hi - 1) + f'(hi - 1) * g(hi - 1);
    }
  }

  lemma {:induction false} DotSplit(f: int -> real, g: int -> real, lo: int, mid: int, hi: int)
    requires lo <= mid <= hi
    ensures Dot(f, g, lo, hi) == Dot(f, g, lo, mid) + Dot(f, g, mid, hi)
    decreases hi - mid
  {
    hide Dot, Sum;
    DotLast(f, g, lo, hi);
    DotLast(f, g, mid, hi);
    if mid < hi { DotSplit(f, g, lo, mid, hi - 1); }
  }

  /** Sliding the range of a dot product. */
  lemma {:induction false} DotShift(f: int -> real, g: int -> real, f': int -> real, g': int -> real, lo: int, hi: int,
                                    d: int)
    requires forall i :: lo <= i < hi ==> f(i) == f'(i + d)
    requires forall i :: lo <= i < hi ==> g(i) == g'(i + d)
    ensures Dot(f, g, lo, hi) == Dot(f', g', lo + d, hi + d)
    decreases hi - lo
  {
    hide Dot, Sum;
    DotLast(f, g, lo, hi);
    DotLast(f', g', lo + d, hi + d);
    if lo < hi {
      DotShift(f, g, f', g', lo, hi - 1, d);
      assert hi - 1 + d == hi + d - 1;
    }
  }

  /** Row i of a matrix against a vector, as a function of i. */
  function Rows(a: (int, int) -> real, v: int -> real, lo: int, hi: int): int -> real {
    i => Dot(j => a(i, j), v, lo, hi)
  }

  /** Column j of a matrix against a vector, as a function of j. */
  function Columns(a: (int, int) -> real, v: int -> real, lo: int, hi: int): int -> real {
    j => Dot(i => a(i, j), v, lo, hi)
  }

  /** u . (A v) == (u A) . v */
  lemma {:induction false} DotSwap(a: (int, int) -> real, u: int -> real, lo: int, hi: int, v: int -> real, lo': int,
                                   hi': int)
    ensures Dot(Rows(a, v, lo', hi'), u, lo, hi) == Dot(Columns(a, u, lo, hi), v, lo', hi')
    decreases hi - lo
  {
    var cols := Columns(a, u, lo, hi);
    var rows := Rows(a, v, lo', hi');
    hide Dot, Sum;
    DotLast(rows, u, lo, hi);
    if hi <= lo {
      forall j | lo' <= j < hi' ensures cols(j) == 0.0 {
        DotLast(i => a(i, j), u, lo, hi);
      }
      DotZero(cols, v, lo', hi');
    } else {
      DotSwap(a, u, lo, hi - 1, v, lo', hi');
      var before := Columns(a, u, lo, hi - 1);
      var row := j => a(hi - 1, j);
      var last := j => u(hi - 1) * row(j);
      forall j | lo' <= j < hi' ensures cols(j) == before(j) + last(j) {
        DotLast(i => a(i, j), u, lo, hi);
      }
      DotAdd(cols, before, last, v, lo', hi');
      DotScale(last, u(hi - 1), row, v, lo', hi');
      assert rows(hi - 1) == Dot(row, v, lo', hi') by {
        DotExt(j => a(hi - 1, j), v, row, v, lo', hi');
      }
    }
  }
}
