/**
 * The in-place Walsh-Hadamard butterfly, against the Sylvester matrix.
 * The square root of the length is a parameter `root` with root * root == length.
 */
module Hadamard {
  import opened Sums
  import Modular

  function Pow2(k: nat): nat
    ensures Pow2(k) >= 1
  {
    if k == 0 then 1 else 2 * Pow2(k - 1)
  }

  /** Entry (r, c) of the 2^k Sylvester matrix: [[H, H], [H, -H]] at every level. */
  function Had(k: nat, r: int, c: int): real {
    if k == 0 then 1.0
    else
      var h := Pow2(k - 1);
      if r < h then Had(k - 1, r, if c < h then c else c - h)
      else if c < h then Had(k - 1, r - h, c)
      else -Had(k - 1, r - h, c - h)
  }

  function HadRow(k: nat, r: int): int -> real { c => Had(k, r, c) }

  function Window(x: seq<real>, off: int): int -> real { c => if 0 <= off + c < |x| then x[off + c] else 0.0 }

  /** Row r of the 2^k matrix against the entries of x that start at `off`. */
  function Row(k: nat, x: seq<real>, off: int, r: int): real {
    Dot(HadRow(k, r), Window(x, off), 0, Pow2(k))
  }

  function Signed(neg: bool, v: real): real { if neg then -v else v }

  function Fold(r: int, h: int): int { if r < h then r else r - h }

  function Shifted(f: int -> real, h: int): int -> real { c => f(c - h) }

  /** f is f' on the first h indices and f' again, perhaps negated, on the next h. */
  ghost predicate Halves(f: int -> real, f': int -> real, neg: bool, h: int) {
    && (forall c {:trigger f(c)} :: c < h ==> f(c) == f'(c))
    && (forall c {:trigger f(c)} :: h <= c ==> f(c) == Signed(neg, Shifted(f', h)(c)))
  }

  lemma HadSplit(k: nat, r: int, c: int)
    requires k > 0
    ensures var h := Pow2(k - 1); Had(k, r, c) == Signed(r >= h && c >= h, Had(k - 1, Fold(r, h), Fold(c, h)))
  {
  }

  /** A row of the doubled matrix is a row of the small one, twice, the second copy signed. */
  lemma RowHalves(k: nat, r: int)
    requires k > 0
    ensures var h := Pow2(k - 1); Halves(HadRow(k, r), HadRow(k - 1, Fold(r, h)), r >= h, h)
  {
    hide Had, Pow2;
    var h, f := Pow2(k - 1), Fold(r, Pow2(k - 1));
    var row, small := HadRow(k, r), HadRow(k - 1, f);
    forall c: int | c < h ensures row(c) == small(c) { HadSplit(k, r, c); }
    forall c: int | h <= c ensures row(c) == Signed(r >= h, Shifted(small, h)(c)) { HadSplit(k, r, c); }
  }

  lemma ColumnHalves(k: nat, d: int)
    requires k > 0
    ensures var h := Pow2(k - 1); Halves(HadColumn(k, d), HadColumn(k - 1, Fold(d, h)), d >= h, h)
  {
    hide Had, Pow2;
    var h, f := Pow2(k - 1), Fold(d, Pow2(k - 1));
    var col, small := HadColumn(k, d), HadColumn(k - 1, f);
    forall c: int | c < h ensures col(c) == small(c) { HadSplit(k, c, d); }
    forall c: int | h <= c ensures col(c) == Signed(d >= h, Shifted(small, h)(c)) { HadSplit(k, c, d); }
  }

  function Ahead(f: int -> real, h: int): int -> real { c => f(c + h) }

  lemma DotLow(f: int -> real, f': int -> real, neg: bool, g: int -> real, h: nat)
    requires Halves(f, f', neg, h)
    ensures Dot(f, g, 0, h) == Dot(f', g, 0, h)
  {
    hide Dot;
    DotExt(f, g, f', g, 0, h);
  }

  lemma DotHigh(f: int -> real, f': int -> real, neg: bool, g: int -> real, h: nat)
    requires Halves(f, f', neg, h)
    ensures Dot(f, g, h, 2 * h) == Signed(neg, Dot(Shifted(f', h), g, h, 2 * h))
  {
    hide Dot, Shifted;
    if neg {
      DotScale(f, -1.0, Shifted(f', h), g, h, 2 * h);
    } else {
      DotExt(f, g, Shifted(f', h), g, h, 2 * h);
    }
  }

  lemma DotBack(f: int -> real, g: int -> real, h: nat)
    ensures Dot(Shifted(f, h), g, h, 2 * h) == Dot(f, Ahead(g, h), 0, h)
  {
    hide Dot;
    DotShift(f, Ahead(g, h), Shifted(f, h), g, 0, h, h);
  }

  lemma DotHalves(f: int -> real, f': int -> real, neg: bool, g: int -> real, h: nat)
    requires Halves(f, f', neg, h)
    ensures Dot(f, g, 0, 2 * h) == Dot(f', g, 0, h) + Signed(neg, Dot(f', Ahead(g, h), 0, h))
  {
    hide Dot, Halves, Shifted, Ahead;
    DotSplit(f, g, 0, h, 2 * h);
    DotLow(f, f', neg, g, h);
    DotHigh(f, f', neg, g, h);
    DotBack(f', g, h);
  }

  /** One butterfly: the two halves of the window are added and subtracted. */
  lemma Butterfly(k: nat, x: seq<real>, off: int, r: int)
    requires k > 0
    ensures var h := Pow2(k - 1);
      Row(k, x, off, r) == Row(k - 1, x, off, Fold(r, h)) + Signed(r >= h, Row(k - 1, x, off + h, Fold(r, h)))
  {
    var h, f := Pow2(k - 1), HadRow(k - 1, Fold(r, Pow2(k - 1)));
    hide Dot, Had, HadRow, Halves, Fold;
    RowHalves(k, r);
    DotHalves(HadRow(k, r), f, r >= h, Window(x, off), h);
    DotExt(f, Ahead(Window(x, off), h), f, Window(x, off + h), 0, h);
  }

  /** The value of entry p once blocks of 2^k entries have been transformed. */
  function Level(k: nat, x: seq<real>, p: nat): real { Row(k, x, p - p % Pow2(k), p % Pow2(k)) }

  lemma LevelIn(k: nat, x: seq<real>, base: nat, r: nat)
    requires base % Pow2(k) == 0 && r < Pow2(k)
    ensures Level(k, x, base + r) == Row(k, x, base, r)
  {
    var n := Pow2(k);
    assert base == (base / n) * n;
    Modular.DivModUnique(base + r, n, base / n, r);
  }

  /** A block start at one level is a block start at the level below, and so is its middle. */
  lemma HalfBlocks(base: nat, h: nat)
    requires 1 <= h && base % (2 * h) == 0
    ensures base % h == 0 && (base + h) % h == 0
  {
    var q := base / (2 * h);
    assert base == q * (2 * h);
    assert base == (2 * q) * h;
    assert base + h == (2 * q + 1) * h;
    Modular.MultipleMod(2 * q, h);
    Modular.MultipleMod(2 * q + 1, h);
  }

  lemma Level0(x: seq<real>, p: nat)
    requires p < |x|
    ensures Level(0, x, p) == x[p]
  {
    assert p % 1 == 0;
    var row, w := HadRow(0, 0), Window(x, p);
    DotLast(row, w, 0, 1);
    DotLast(row, w, 0, 0);
  }

  /** Both halves of one block of 2^(k+1) entries, from the block's two blocks of 2^k. */
  lemma BlockStep(k: nat, x: seq<real>, base: nat, r: nat)
    requires base % Pow2(k + 1) == 0 && r < Pow2(k)
    ensures var h := Pow2(k);
      && Level(k + 1, x, base + r) == Level(k, x, base + r) + Level(k, x, base + h + r)
      && Level(k + 1, x, base + h + r) == Level(k, x, base + r) - Level(k, x, base + h + r)
  {
    var h := Pow2(k);
    hide Row, Level;
    HalfBlocks(base, h);
    LevelIn(k, x, base, r);
    LevelIn(k, x, base + h, r);
    LevelIn(k + 1, x, base, r);
    LevelIn(k + 1, x, base, h + r);
    Butterfly(k + 1, x, base, r);
    Butterfly(k + 1, x, base, h + r);
    assert base + (h + r) == base + h + r;
  }

  lemma Ordered(q: int, m: int, b: int)
    requires 0 < b && q * b < m * b
    ensures q * b + b <= m * b
  {
    if m <= q {
      Modular.MulMonotone(m, q, b);
    } else {
      Modular.ScaleUp(m - q, b);
      assert (m - q) * b == m * b - q * b;
    }
  }

  lemma BlockEnds(i: nat, b: nat, n: nat)
    requires 1 <= b && i % b == 0 && n % b == 0 && i < n
    ensures i + b <= n && (i + b) % b == 0
  {
    var q, m := i / b, n / b;
    assert i == q * b && n == m * b;
    Ordered(q, m, b);
    assert (q + 1) * b == q * b + b;
    assert i + b == (q + 1) * b;
    Modular.MultipleMod(q + 1, b);
  }

  lemma {:induction false} Pow2Divides(j: nat, k: nat)
    requires j <= k
    ensures Pow2(k) % Pow2(j) == 0 && Pow2(j) <= Pow2(k)
    decreases k - j
  {
    if j == k {
      Modular.MultipleMod(1, Pow2(j));
    } else {
      Pow2Divides(j + 1, k);
      HalfBlocks(Pow2(k), Pow2(j));
    }
  }

  /** `lo` and `hi` of one block become their sum and difference, from copies taken first. */
  method Combine(y: array<real>, ghost x: seq<real>, ghost j: nat, h: nat, i: nat)
    requires h == Pow2(j) && i + 2 * h <= y.Length && i % (2 * h) == 0
    requires forall p :: i <= p < i + 2 * h ==> y[p] == Level(j, x, p)
    modifies y
    ensures forall p :: i <= p < i + 2 * h ==> y[p] == Level(j + 1, x, p)
    ensures forall p :: 0 <= p < i || i + 2 * h <= p < y.Length ==> y[p] == old(y[p])
  {
    hide Level;
    var t, hiC := y[i..i + h], y[i + h..i + 2 * h];
    forall r | 0 <= r < h { y[i + r] := t[r] + hiC[r]; }
    forall r | 0 <= r < h { y[i + h + r] := t[r] - hiC[r]; }
    forall p | i <= p < i + 2 * h ensures y[p] == Level(j + 1, x, p) {
      var r := if p < i + h then p - i else p - i - h;
      assert t[r] == Level(j, x, i + r) && hiC[r] == Level(j, x, i + h + r);
      BlockStep(j, x, i, r);
      if p < i + h { assert p == i + r; } else { assert p == i + h + r; }
    }
  }

  /** One pass over the array: every pair of neighbouring blocks of h entries is combined in place. */
  method Stage(y: array<real>, ghost x: seq<real>, ghost j: nat, h: nat)
    requires h == Pow2(j) && y.Length % (2 * h) == 0
    requires forall p :: 0 <= p < y.Length ==> y[p] == Level(j, x, p)
    modifies y
    ensures forall p :: 0 <= p < y.Length ==> y[p] == Level(j + 1, x, p)
  {
    hide Level;
    var i := 0;
    while i < y.Length
      invariant 0 <= i <= y.Length && i % (2 * h) == 0
      invariant forall p :: 0 <= p < i ==> y[p] == Level(j + 1, x, p)
      invariant forall p :: i <= p < y.Length ==> y[p] == Level(j, x, p)
    {
      BlockEnds(i, 2 * h, y.Length);
      Combine(y, x, j, h, i);
      i := i + 2 * h;
    }
  }

  /** The normalised transform of 2^k entries. */
  function Transform(k: nat, x: seq<real>, root: real): seq<real>
    requires root != 0.0
  {
    seq(Pow2(k), p => Row(k, x, 0, p) / root)
  }

  method WhtLast(x: seq<real>, k: nat, root: real) returns (out: seq<real>)
    requires |x| == Pow2(k) && root > 0.0 && root * root == |x| as real
    ensures out == Transform(k, x, root)
  {
    var n := |x|;
    var y := new real[n](i requires 0 <= i < n => x[i]);
    forall p | 0 <= p < n ensures y[p] == Level(0, x, p) { Level0(x, p); }
    var h := 1;
    ghost var j := 0;
    while h < n
      invariant j <= k && h == Pow2(j)
      invariant forall p :: 0 <= p < n ==> y[p] == Level(j, x, p)
      decreases n - h
    {
      hide Level;
      Pow2Divides(j + 1, k);
      Stage(y, x, j, h);
      h := h * 2;
      j := j + 1;
    }
    if j < k { Pow2Divides(j + 1, k); }
    assert j == k;
    forall p | 0 <= p < n ensures y[p] == Row(k, x, 0, p) {
      hide Level;
      LevelIn(k, x, 0, p);
    }
    out := seq(n, p requires 0 <= p < n reads y => y[p] / root);
  }

  // ---------------------------------------------------------------------------
  // Twice is the identity
  // ---------------------------------------------------------------------------

  function HadColumn(k: nat, d: int): int -> real { c => Had(k, c, d) }

  /** The Sylvester matrix is symmetric and its rows are orthogonal: H H = 2^k I. */
  lemma {:induction false} Orthogonal(k: nat, p: int, d: int)
    requires 0 <= p < Pow2(k) && 0 <= d < Pow2(k)
    ensures Dot(HadRow(k, p), HadColumn(k, d), 0, Pow2(k)) == if p == d then Pow2(k) as real else 0.0
  {
    var row, col := HadRow(k, p), HadColumn(k, d);
    if k == 0 {
      DotLast(row, col, 0, 1);
      DotLast(row, col, 0, 0);
    } else {
      Orthogonal(k - 1, Fold(p, Pow2(k - 1)), Fold(d, Pow2(k - 1)));
      OrthogonalStep(k, p, d);
    }
  }

  /** Doubling: the two halves of the product agree up to the product of the two signs. */
  lemma OrthogonalStep(k: nat, p: int, d: int)
    requires k > 0
    ensures var h := Pow2(k - 1); var small := Dot(HadRow(k - 1, Fold(p, h)), HadColumn(k - 1, Fold(d, h)), 0, h);
      Dot(HadRow(k, p), HadColumn(k, d), 0, 2 * h) == small + Signed(p >= h, Signed(d >= h, small))
  {
    var h := Pow2(k - 1);
    hide Dot, Had, HadRow, HadColumn, Halves, Fold;
    RowHalves(k, p);
    ColumnHalves(k, d);
    DotBothHalves(HadRow(k, p), HadRow(k - 1, Fold(p, h)), p >= h, HadColumn(k, d), HadColumn(k - 1, Fold(d, h)),
                  d >= h, h);
  }

  lemma DotBothHalves(f: int -> real, f': int -> real, neg: bool, g: int -> real, g': int -> real, neg': bool, h: nat)
    requires Halves(f, f', neg, h) && Halves(g, g', neg', h)
    ensures Dot(f, g, 0, 2 * h) == Dot(f', g', 0, h) + Signed(neg, Signed(neg', Dot(f', g', 0, h)))
  {
    hide Dot, Halves, Ahead;
    AheadDot(f', g, g', neg', h);
    DotHalves(f, f', neg, g, h);
  }

  lemma AheadDot(f: int -> real, g: int -> real, g': int -> real, neg: bool, h: nat)
    requires Halves(g, g', neg, h)
    ensures Dot(f, g, 0, h) == Dot(f, g', 0, h)
    ensures Dot(f, Ahead(g, h), 0, h) == Signed(neg, Dot(f, g', 0, h))
  {
    AheadCopies(g, g', neg, h);
    hide Dot, Halves, Ahead;
    DotExt(f, g, f, g', 0, h);
    if neg {
      DotComm(f, Ahead(g, h), 0, h);
      DotScale(Ahead(g, h), -1.0, g', f, 0, h);
      DotComm(g', f, 0, h);
    } else {
      DotExt(f, Ahead(g, h), f, g', 0, h);
    }
  }

  lemma AheadCopies(f: int -> real, f': int -> real, neg: bool, h: int)
    requires Halves(f, f', neg, h) && 0 <= h
    ensures forall c :: 0 <= c < h ==> f(c) == f'(c)
    ensures forall c :: 0 <= c < h ==> Ahead(f, h)(c) == Signed(neg, f'(c))
  {
    forall c: int | 0 <= c < h ensures Ahead(f, h)(c) == Signed(neg, f'(c)) {
      assert f(c + h) == Signed(neg, Shifted(f', h)(c + h));
      assert Shifted(f', h)(c + h) == f'(c);
    }
  }

  lemma RowsBack(k: nat, x: seq<real>, root: real, p: int)
    requires |x| == Pow2(k) && root > 0.0 && 0 <= p < |x|
    ensures Dot(HadRow(k, p), Entries(k, x), 0, Pow2(k)) == Pow2(k) as real * x[p]
  {
    var n := Pow2(k);
    var a := (c: int, d: int) => Had(k, c, d);
    var w := Window(x, 0);
    var rows, cols := Rows(a, w, 0, n), Columns(a, HadRow(k, p), 0, n);
    hide Dot, Had;
    forall c | 0 <= c < n ensures rows(c) == Row(k, x, 0, c) {
      DotExt(j => a(c, j), w, HadRow(k, c), w, 0, n);
    }
    DotExt(rows, HadRow(k, p), Entries(k, x), HadRow(k, p), 0, n);
    DotComm(Entries(k, x), HadRow(k, p), 0, n);
    DotSwap(a, HadRow(k, p), 0, n, w, 0, n);
    var unit := d => if d == p then n as real else 0.0;
    forall d | 0 <= d < n ensures cols(d) == unit(d) {
      DotExt(i => a(i, d), HadRow(k, p), HadColumn(k, d), HadRow(k, p), 0, n);
      DotComm(HadColumn(k, d), HadRow(k, p), 0, n);
      Orthogonal(k, p, d);
    }
    DotExt(cols, w, unit, w, 0, n);
    PickOne(unit, w, n, p);
  }

  lemma PickOne(unit: int -> real, w: int -> real, n: int, p: int)
    requires 0 <= p < n && forall d :: 0 <= d < n && d != p ==> unit(d) == 0.0
    ensures Dot(unit, w, 0, n) == unit(p) * w(p)
  {
    hide Dot;
    DotSplit(unit, w, 0, p, n);
    DotSplit(unit, w, p, p + 1, n);
    DotZero(unit, w, 0, p);
    DotZero(unit, w, p + 1, n);
    DotLast(unit, w, p, p + 1);
    DotLast(unit, w, p, p);
  }

  /** Applying the normalised transform twice gives back the input. */
  lemma TwiceIsIdentity(k: nat, x: seq<real>, root: real)
    requires |x| == Pow2(k) && root > 0.0 && root * root == Pow2(k) as real
    ensures Transform(k, Transform(k, x, root), root) == x
  {
    hide Row;
    var y := Transform(k, x, root);
    forall p | 0 <= p < |x| ensures Transform(k, y, root)[p] == x[p] { EntryBack(k, x, root, p); }
  }

  lemma EntryBack(k: nat, x: seq<real>, root: real, p: int)
    requires |x| == Pow2(k) && root > 0.0 && root * root == Pow2(k) as real && 0 <= p < |x|
    ensures Row(k, Transform(k, x, root), 0, p) / root == x[p]
  {
    hide Row, Transform;
    RawBack(k, x, root, p);
    Normalise(Row(k, Transform(k, x, root), 0, p), Pow2(k) as real, x[p], root);
  }

  lemma RawBack(k: nat, x: seq<real>, root: real, p: int)
    requires |x| == Pow2(k) && root > 0.0 && 0 <= p < |x|
    ensures Row(k, Transform(k, x, root), 0, p) == (1.0 / root) * (Pow2(k) as real * x[p])
  {
    hide Dot, HadRow, Row, Transform, Entries;
    ScaledRow(k, x, Transform(k, x, root), root, p);
    RowsBack(k, x, root, p);
  }

  lemma ScaledRow(k: nat, x: seq<real>, y: seq<real>, root: real, p: int)
    requires root > 0.0 && y == Transform(k, x, root)
    ensures Row(k, y, 0, p) == (1.0 / root) * Dot(HadRow(k, p), Entries(k, x), 0, Pow2(k))
  {
    var n, inv, wy, raw := Pow2(k), 1.0 / root, Window(y, 0), Entries(k, x);
    RowIs(k, y, p);
    hide Dot, Had, HadRow, Row, Window, Transform, Entries;
    forall c | 0 <= c < n ensures wy(c) == inv * raw(c) { ScaledEntry(k, x, root, c); }
    DotComm(HadRow(k, p), wy, 0, n);
    DotScale(wy, inv, raw, HadRow(k, p), 0, n);
    DotComm(raw, HadRow(k, p), 0, n);
  }

  function Entries(k: nat, x: seq<real>): int -> real { c => Row(k, x, 0, c) }

  lemma RowIs(k: nat, y: seq<real>, p: int)
    ensures Row(k, y, 0, p) == Dot(HadRow(k, p), Window(y, 0), 0, Pow2(k))
  {
  }

  lemma ScaledEntry(k: nat, x: seq<real>, root: real, c: int)
    requires root > 0.0 && 0 <= c < Pow2(k)
    ensures Window(Transform(k, x, root), 0)(c) == (1.0 / root) * Entries(k, x)(c)
  {
    hide Row;
    Divide(Row(k, x, 0, c), root);
  }

  lemma Divide(a: real, b: real)
    requires b > 0.0
    ensures a / b == (1.0 / b) * a
  {
  }

  lemma Normalise(v: real, n: real, x: real, root: real)
    requires root > 0.0 && root * root == n && v == (1.0 / root) * (n * x)
    ensures v / root == x
  {
    var inv := 1.0 / root;
    assert inv * root == 1.0;
    assert n * x == root * (root * x);
    assert v == (inv * root) * (root * x);
    assert v == root * x;
  }
}
