/**
 * N-gram hashing: a prime vocabulary per head, disjoint id ranges, and ids that depend
 * on at most ngramSize - 1 earlier tokens of the same segment.
 */
module NGram {
  import opened Prelude
  import Modular
  import P = Primes

  // ---------------------------------------------------------------------------
  // Multipliers
  // ---------------------------------------------------------------------------

  const MaxLong: nat := 0x7FFF_FFFF_FFFF_FFFF
  const Two64: nat := 0x1_0000_0000_0000_0000
  const Gamma: nat := 0x9E37_79B9_7F4A_7C15
  const Mix1: nat := 0xBF58_476D_1CE4_E5B9
  const Mix2: nat := 0x94D0_49BB_1331_11EB

  /** Bitwise exclusive or of naturals. */
  function Xor(a: nat, b: nat): nat {
    if a == 0 then b else if b == 0 then a else 2 * Xor(a / 2, b / 2) + (a % 2 + b % 2) % 2
  }

  /** Bit i of a natural. */
  function Bit(x: nat, i: nat): nat { if i == 0 then x % 2 else Bit(x / 2, i - 1) }

  /** Exclusive or, bit by bit: set where exactly one of the two is. */
  lemma {:induction false} XorBit(a: nat, b: nat, i: nat)
    ensures Bit(Xor(a, b), i) == (Bit(a, i) + Bit(b, i)) % 2
    decreases i
  {
    if a == 0 || b == 0 {
      ZeroBit(i);
      BitSmall(if a == 0 then b else a, i);
    } else {
      var half, low := Xor(a / 2, b / 2), (a % 2 + b % 2) % 2;
      assert Xor(a, b) == 2 * half + low;
      assert (2 * half + low) % 2 == low && (2 * half + low) / 2 == half;
      if i > 0 { XorBit(a / 2, b / 2, i - 1); }
    }
  }

  lemma {:induction false} ZeroBit(i: nat)
    ensures Bit(0, i) == 0
  {
    if i > 0 { ZeroBit(i - 1); }
  }

  lemma {:induction false} BitSmall(x: nat, i: nat)
    ensures Bit(x, i) < 2
    decreases i
  {
    if i > 0 { BitSmall(x / 2, i - 1); }
  }

  /** The bits determine the number. */
  lemma {:induction false} SameBits(a: nat, b: nat)
    requires forall i: nat :: Bit(a, i) == Bit(b, i)
    ensures a == b
    decreases a + b
  {
    assert Bit(a, 0) == a % 2 && Bit(b, 0) == b % 2;
    assert a == 2 * (a / 2) + a % 2 && b == 2 * (b / 2) + b % 2;
    if a + b > 0 {
      forall i: nat ensures Bit(a / 2, i) == Bit(b / 2, i) {
        assert Bit(a, i + 1) == Bit(a / 2, i) && Bit(b, i + 1) == Bit(b / 2, i);
      }
      SameBits(a / 2, b / 2);
    }
  }

  /** Exclusive or undoes itself. */
  lemma XorTwice(a: nat, b: nat)
    ensures Xor(Xor(a, b), b) == a
  {
    hide Xor, Bit;
    forall i: nat ensures Bit(Xor(Xor(a, b), b), i) == Bit(a, i) {
      XorBit(Xor(a, b), b, i);
      XorBit(a, b, i);
      BitSmall(a, i);
      BitSmall(b, i);
    }
    SameBits(Xor(Xor(a, b), b), a);
  }

  function Pow2(k: nat): (p: nat)
    ensures p > 0
  {
    if k == 0 then 1 else 2 * Pow2(k - 1)
  }

  /** Exclusive or needs no more bits than its arguments. */
  lemma {:induction false} XorFits(a: nat, b: nat, k: nat)
    requires a < Pow2(k) && b < Pow2(k)
    ensures Xor(a, b) < Pow2(k)
  {
    if k > 0 && a > 0 && b > 0 {
      XorFits(a / 2, b / 2, k - 1);
    }
  }

  function SplitMix64(value: int): nat {
    var v := (value + Gamma) % Two64;
    var w := (Xor(v, v / 0x4000_0000) * Mix1) % Two64;
    var x := (Xor(w, w / 0x800_0000) * Mix2) % Two64;
    Xor(x, x / 0x8000_0000) % Two64
  }

  // ---------------------------------------------------------------------------
  // The mix loses nothing
  // ---------------------------------------------------------------------------

  lemma XorHalves(a: nat, b: nat)
    ensures Xor(a, b) / 2 == Xor(a / 2, b / 2) && Xor(a, b) % 2 == (a % 2 + b % 2) % 2
  {
    var half, low := Xor(a / 2, b / 2), (a % 2 + b % 2) % 2;
    assert (2 * half + low) % 2 == low && (2 * half + low) / 2 == half;
  }

  /** A number without its s lowest bits. */
  function Shifted(a: nat, s: nat): nat { Over(a, Pow2(s)) }

  function Over(a: nat, b: nat): nat
    requires b > 0
  {
    a / b
  }

  lemma ShiftHalf(a: nat, s: nat)
    ensures Shifted(a, s) / 2 == Shifted(a / 2, s) && Shifted(a, s + 1) == Shifted(a / 2, s)
  {
    PowNext(s);
    hide Pow2;
    DivDiv(a, 2, Pow2(s));
    DivDiv(a, Pow2(s), 2);
  }

  lemma DivDiv(a: nat, b: nat, c: nat)
    requires b > 0 && c > 0
    ensures b * c > 0 && (a / b) / c == a / (b * c)
  {
    var q, r := a / b, a % b;
    var k, m := q / c, q % c;
    assert a == q * b + r && q == k * c + m;
    Modular.MulMonotone(m + 1, c, b);
    assert a == k * (b * c) + (m * b + r) by { assert (k * c + m) * b == k * (b * c) + m * b; }
    assert (m + 1) * b == m * b + b && m * b >= 0 && c * b == b * c;
    Modular.DivModUnique(a, b * c, k, m * b + r);
  }

  /** The exclusive or of a number with itself shifted right. */
  function ShiftXor(a: nat, s: nat): nat { Xor(a, Shifted(a, s)) }

  lemma ShiftXorHalf(a: nat, s: nat)
    requires s > 0
    ensures ShiftXor(a, s) / 2 == ShiftXor(a / 2, s)
    ensures ShiftXor(a, s) % 2 == (a % 2 + Shifted(a / 2, s - 1) % 2) % 2
  {
    hide Shifted, Xor;
    XorHalves(a, Shifted(a, s));
    ShiftHalf(a, s);
    ShiftHalf(a, s - 1);
  }

  lemma LowBit(a: nat, b: nat, c: nat)
    requires (a % 2 + c % 2) % 2 == (b % 2 + c % 2) % 2 && a / 2 == b / 2
    ensures a == b
  {
  }

  /** A number can be read off its exclusive or with itself shifted right. */
  lemma {:induction false} ShiftXorOnce(a: nat, b: nat, s: nat)
    requires s > 0 && ShiftXor(a, s) == ShiftXor(b, s)
    ensures a == b
    decreases a + b
  {
    hide ShiftXor, Shifted;
    if a + b > 0 {
      ShiftXorHalf(a, s);
      ShiftXorHalf(b, s);
      ShiftXorOnce(a / 2, b / 2, s);
      LowBit(a, b, Shifted(a / 2, s - 1));
    }
  }

  /** Multiplying by a number that has an inverse can be undone. */
  lemma Unmultiplied(w: nat, m: nat, inv: nat, n: nat)
    requires w < n && (m * inv) % n == 1
    ensures (((w * m) % n) * inv) % n == w
  {
    var q, r, k := (w * m) / n, (w * m) % n, (m * inv) / n;
    assert w * m == q * n + r && m * inv == k * n + 1;
    assert (w * m) * inv == w * (m * inv);
    assert r * inv == (w * k - q * inv) * n + w by {
      assert (q * n + r) * inv == (q * inv) * n + r * inv;
      assert w * (k * n + 1) == (w * k) * n + w;
      assert (w * k - q * inv) * n == (w * k) * n - (q * inv) * n;
    }
    Modular.DivModUnique(r * inv, n, w * k - q * inv, w);
  }

  lemma TimesOnce(a: nat, b: nat, m: nat, inv: nat, n: nat)
    requires a < n && b < n && (m * inv) % n == 1 && (a * m) % n == (b * m) % n
    ensures a == b
  {
    Unmultiplied(a, m, inv, n);
    Unmultiplied(b, m, inv, n);
  }

  lemma PlusOnce(a: nat, b: nat, c: nat, n: nat)
    requires a < n && b < n && (a + c) % n == (b + c) % n
    ensures a == b
  {
    var p, q, r := (a + c) / n, (b + c) / n, (a + c) % n;
    assert a + c == p * n + r && b + c == q * n + r;
    assert a - b == (p - q) * n && b - a == (q - p) * n;
    if p > q { Modular.MulMonotone(1, p - q, n); }
    if p < q { Modular.MulMonotone(1, q - p, n); }
  }

  const Inverse1: nat := 0x96DE_1B17_3F11_9089
  const Inverse2: nat := 0x3196_42B2_D24D_8EC3

  lemma ShiftedFits(a: nat, s: nat)
    requires a < Two64
    ensures ShiftXor(a, s) < Two64
  {
    Pow63();
    assert Pow2(64) == 2 * Pow2(63);
    hide Pow2;
    Quotient(a, Pow2(s));
    XorFits(a, Shifted(a, s), 64);
  }

  lemma Shifts()
    ensures Pow2(30) == 0x4000_0000 && Pow2(27) == 0x800_0000 && Pow2(31) == 0x8000_0000
  {
    hide Pow2;
    PowZero();
    Pow8(0);
    Pow8(8);
    Pow8(16);
    PowNext(24);
    PowNext(25);
    PowNext(26);
    PowNext(27);
    PowNext(28);
    PowNext(29);
    PowNext(30);
  }

  lemma PowZero()
    ensures Pow2(0) == 1
  {
  }

  lemma PowNext(k: nat)
    ensures Pow2(k + 1) == 2 * Pow2(k)
  {
  }

  /** One round: shift, exclusive or, and multiply. */
  function Round(a: nat, s: nat, m: nat): nat { (ShiftXor(a, s) * m) % Two64 }

  lemma RoundOnce(a: nat, b: nat, s: nat, m: nat, inv: nat)
    requires a < Two64 && b < Two64 && s > 0 && (m * inv) % Two64 == 1
    requires Round(a, s, m) == Round(b, s, m)
    ensures a == b
  {
    hide ShiftXor;
    ShiftedFits(a, s);
    ShiftedFits(b, s);
    TimesOnce(ShiftXor(a, s), ShiftXor(b, s), m, inv, Two64);
    ShiftXorOnce(a, b, s);
  }

  function Start(value: nat): nat { (value + Gamma) % Two64 }

  lemma RoundsFit(a: nat, s: nat, m: nat)
    ensures Round(a, s, m) < Two64 && Start(a) < Two64
  {
  }

  lemma MixRounds(value: nat)
    ensures SplitMix64(value) == ShiftXor(Round(Round(Start(value), 30, Mix1), 27, Mix2), 31)
  {
    Shifts();
    hide Pow2, Xor;
    ShiftedFits(Round(Round(Start(value), 30, Mix1), 27, Mix2), 31);
  }

  lemma StartOnce(a: nat, b: nat)
    requires a < Two64 && b < Two64 && Start(a) == Start(b)
    ensures a == b
  {
    PlusOnce(a, b, Gamma, Two64);
  }

  lemma Inverses()
    ensures (Mix1 * Inverse1) % Two64 == 1 && (Mix2 * Inverse2) % Two64 == 1
  {
  }

  /** Different seeds give different mixes. */
  lemma MixOnce(a: nat, b: nat)
    requires a < Two64 && b < Two64 && SplitMix64(a) == SplitMix64(b)
    ensures a == b
  {
    hide ShiftXor, SplitMix64, Round, Start;
    Inverses();
    MixRounds(a);
    MixRounds(b);
    RoundsFit(a, 30, Mix1);
    RoundsFit(b, 30, Mix1);
    var wa, wb := Round(Start(a), 30, Mix1), Round(Start(b), 30, Mix1);
    RoundsFit(Start(a), 30, Mix1);
    RoundsFit(Start(b), 30, Mix1);
    ShiftXorOnce(Round(wa, 27, Mix2), Round(wb, 27, Mix2), 31);
    RoundOnce(wa, wb, 27, Mix2, Inverse2);
    RoundOnce(Start(a), Start(b), 30, Mix1, Inverse1);
    StartOnce(a, b);
  }

  function Max(a: nat, b: nat): nat { if a < b then b else a }

  function HalfBound(vocab: nat): (h: nat)
    ensures h >= 1
  {
    Max(1, (MaxLong / Max(vocab, 1)) / 2)
  }

  /** The half bound is the largest one that cannot overflow, and at least one. */
  lemma HalfBoundLargest(vocab: nat)
    requires vocab > 0
    ensures HalfBound(vocab) > 1 ==> 2 * HalfBound(vocab) * vocab <= MaxLong
    ensures 2 * (HalfBound(vocab) + 1) * vocab > MaxLong
  {
    var q, h := MaxLong / vocab, MaxLong / vocab / 2;
    Halves(MaxLong, vocab, q, h);
    assert HalfBound(vocab) == if h > 1 then h else 1;
    if h < 1 { assert 2 * (HalfBound(vocab) + 1) * vocab == 4 * vocab && 2 * (h + 1) * vocab == 2 * vocab; }
  }

  lemma Halves(n: nat, d: nat, q: nat, h: nat)
    requires d > 0 && q == n / d && h == q / 2
    ensures 2 * h * d <= n < 2 * (h + 1) * d
  {
    assert n < (q + 1) * d && q * d <= n;
    Modular.MulMonotone(2 * h, q, d);
    Modular.MulMonotone(q + 1, 2 * (h + 1), d);
  }

  /** The multiplier of one position: odd, and at most twice the half bound. */
  function Multiplier(vocab: nat, baseSeed: int, index: nat): (m: nat)
  {
    2 * (SplitMix64((baseSeed + Gamma * (index + 1)) % Two64) % HalfBound(vocab)) + 1
  }

  /** A multiplier is odd, and a token of the vocabulary times it fits a signed 64-bit integer. */
  ghost predicate Admissible(vocab: nat, m: nat) {
    m % 2 == 1 && m <= MaxLong && forall token: nat :: token < vocab && token <= MaxLong ==> token * m <= MaxLong
  }

  /** One multiplier per position; the seed and the layer decide which, none can overflow. */
  method BuildLayerMultipliers(vocab: nat, ngramSize: nat, pleIndex: nat, seed: int) returns (mults: seq<nat>)
    ensures |mults| == ngramSize
    ensures forall k :: 0 <= k < ngramSize ==> Admissible(vocab, mults[k])
    ensures forall k :: 0 <= k < ngramSize ==> mults[k] == Multiplier(vocab, seed + 10007 * pleIndex, k)
  {
    var baseSeed := seed + 10007 * pleIndex;
    mults := [];
    for index := 0 to ngramSize
      invariant |mults| == index
      invariant forall k :: 0 <= k < index ==> Admissible(vocab, mults[k]) && mults[k] == Multiplier(vocab, baseSeed, k)
    {
      MultiplierAdmissible(vocab, baseSeed, index);
      hide Admissible;
      var value := (baseSeed + Gamma * (index + 1)) % Two64;
      mults := mults + [2 * (SplitMix64(value) % HalfBound(vocab)) + 1];
    }
  }

  /** The product of a token below the vocabulary size with its multiplier fits a signed 64-bit integer. */
  lemma ProductFits(vocab: nat, baseSeed: int, index: nat, token: nat)
    requires token < vocab && token <= MaxLong
    ensures Multiplier(vocab, baseSeed, index) % 2 == 1
    ensures token * Multiplier(vocab, baseSeed, index) <= MaxLong
  {
    hide SplitMix64;
    var m, top, half := Multiplier(vocab, baseSeed, index), MaxLong / vocab, HalfBound(vocab);
    var s := SplitMix64((baseSeed + Gamma * (index + 1)) % Two64);
    assert m == 2 * (s % half) + 1 && s % half <= half - 1;
    if top / 2 >= 1 {
      assert m <= top;
      Modular.MulMonotone(token, vocab, m);
      Modular.MulMonotone(m, top, vocab);
      assert MaxLong == top * vocab + MaxLong % vocab;
      assert vocab * m == m * vocab;
    } else {
      assert half == 1 && m == 1;
    }
  }

  lemma MultiplierAdmissible(vocab: nat, baseSeed: int, index: nat)
    ensures Admissible(vocab, Multiplier(vocab, baseSeed, index))
  {
    hide SplitMix64, HalfBound;
    var m, s := Multiplier(vocab, baseSeed, index), SplitMix64((baseSeed + Gamma * (index + 1)) % Two64);
    assert m == 2 * (s % HalfBound(vocab)) + 1;
    HalfSmall(vocab);
    hide Multiplier;
    forall token: nat | token < vocab && token <= MaxLong ensures token * m <= MaxLong {
      ProductFits(vocab, baseSeed, index, token);
    }
  }

  lemma HalfSmall(vocab: nat)
    ensures 2 * HalfBound(vocab) <= MaxLong
  {
    Quotient(MaxLong, Max(vocab, 1));
  }

  lemma Quotient(n: nat, d: nat)
    requires d >= 1
    ensures 0 <= n / d <= n
  {
  }

  /** Exclusive ors of such products stay non-negative 64-bit integers. */
  lemma MixFits(a: nat, b: nat)
    requires a <= MaxLong && b <= MaxLong
    ensures Xor(a, b) <= MaxLong
  {
    assert Pow2(63) == MaxLong + 1 by { Pow63(); }
    XorFits(a, b, 63);
  }

  lemma {:induction false} Pow63()
    ensures Pow2(63) == MaxLong + 1
  {
    hide Pow2;
    PowZero();
    Pow8(0);
    Pow8(8);
    Pow8(16);
    Pow8(24);
    Pow8(32);
    Pow8(40);
    Pow8(48);
    Pow8(56);
  }

  lemma Pow8(k: nat)
    ensures Pow2(k + 8) == 256 * Pow2(k)
    ensures Pow2(k + 7) == 128 * Pow2(k)
  {
    assert Pow2(k + 2) == 4 * Pow2(k);
    assert Pow2(k + 4) == 4 * Pow2(k + 2);
    assert Pow2(k + 6) == 4 * Pow2(k + 4);
  }

  // ---------------------------------------------------------------------------
  // Layout
  // ---------------------------------------------------------------------------

  datatype Layout = Layout(ngramSize: nat, heads: nat, sizes: seq<nat>, offsets: seq<nat>, total: nat, padded: int,
                           mults: seq<nat>)

  function Sum(s: seq<nat>): nat { if s == [] then 0 else Sum(s[..|s| - 1]) + s[|s| - 1] }

  ghost function HeadSize(base: int, heads: nat, layer: nat, head: nat): int {
    P.NthPrime(base - 1, layer * heads + head + 1)
  }

  /** Every head has its own prime, its own offset, and the padded total is the next multiple. */
  ghost predicate LaidOut(l: Layout, base: int, layer: nat, divisor: nat)
    requires divisor >= 1
  {
    && |l.sizes| == |l.offsets|
    && (forall h :: 0 <= h < |l.sizes| ==> l.sizes[h] == HeadSize(base, |l.sizes|, layer, h))
    && (forall h :: 0 <= h < |l.sizes| ==> l.offsets[h] == Sum(l.sizes[..h]))
    && l.total == Sum(l.sizes)
    && (Divides(l.total, divisor) ==> l.padded % divisor == 0 && l.total <= l.padded < l.total + divisor)
  }

  // ---------------------------------------------------------------------------
  // Dividing in floating point
  // ---------------------------------------------------------------------------

  const Exact: nat := 0x20_0000_0000_0000

  const MinExponent: nat := 1022

  /** A total that is exact, and a divisor for which no positive quotient is subnormal. */
  predicate Divides(total: nat, divisor: nat) { total < Exact && divisor <= Pow2(MinExponent) }

  /** Zero, or at least the smallest normal number. */
  predicate Normal(x: real) { x == 0.0 || x * Pow2(MinExponent) as real >= 1.0 }

  /**
   * A rounding to 53 bits: exact on the integers below 2^53, monotone, of relative error 2^-53 but for
   * subnormal numbers.
   */
  ghost predicate Rounds(rd: real -> real) {
    && (forall x :: 0.0 <= x <= Exact as real && x.Floor as real == x ==> rd(x) == x)
    && (forall x, y :: x <= y ==> rd(x) <= rd(y))
    && (forall x :: x >= 0.0 && Normal(x) ==> rd(x) * Exact as real >= x * (Exact as real - 1.0))
  }

  function Ceil(x: real): int { -((-x).Floor) }

  lemma CeilIs(x: real, n: int)
    requires (n - 1) as real < x <= n as real
    ensures Ceil(x) == n
  {
  }

  /** The rounded quotient of a total below 2^53 has the ceiling of the exact one. */
  lemma RoundedCeil(rd: real -> real, total: nat, divisor: nat)
    requires Rounds(rd) && divisor >= 1 && Divides(total, divisor)
    ensures Ceil(rd(total as real / divisor as real)) == (total + divisor - 1) / divisor
  {
    hide Pow2, Rounds, Normal;
    var n, x := (total + divisor - 1) / divisor, total as real / divisor as real;
    NextMultiple(total, divisor);
    CeilSteps(total, divisor, n, x, Exact as real);
    CeilBelow(total, divisor, n);
    QuotientNormal(total, divisor);
    RoundedWithin(rd, x, n);
    AboveFloor(rd(x), x, (n - 1) as real, Exact as real);
    CeilIs(rd(x), n);
  }

  lemma NextMultiple(total: nat, divisor: nat)
    requires divisor >= 1
    ensures var n := (total + divisor - 1) / divisor; (n - 1) * divisor < total <= n * divisor
  {
    var n := (total + divisor - 1) / divisor;
    assert total + divisor - 1 == n * divisor + (total + divisor - 1) % divisor;
  }

  lemma RoundedWithin(rd: real -> real, x: real, n: nat)
    requires Rounds(rd) && 0.0 <= x <= n as real && n <= Exact && Normal(x)
    ensures rd(x) <= n as real && rd(x) * Exact as real >= x * (Exact as real - 1.0)
  {
    var y := n as real;
    assert y.Floor as real == y;
    assert rd(x) <= rd(y);
  }

  lemma QuotientNormal(total: nat, divisor: nat)
    requires divisor >= 1 && Divides(total, divisor)
    ensures Normal(total as real / divisor as real)
  {
    hide Pow2;
    var x, d, bound := total as real / divisor as real, divisor as real, Pow2(MinExponent) as real;
    Undivided(total as real, d);
    if total > 0 { ScaledUp(x, d, bound); }
  }

  lemma ScaledUp(x: real, d: real, e: real)
    requires x * d >= 1.0 && 0.0 < d <= e
    ensures x * e >= 1.0
  {
    Cancel(x, 0.0, d);
    assert x * (e - d) >= 0.0;
  }

  lemma CeilBelow(total: nat, divisor: nat, n: nat)
    requires divisor >= 1 && (n - 1) * divisor < total
    ensures n <= total
  {
    if n > total { Modular.MulMonotone(1, divisor, n - 1); }
  }

  /** The quotient lies above n - 1 by more than its rounding error. */
  lemma CeilSteps(total: nat, divisor: nat, n: nat, x: real, scale: real)
    requires divisor >= 1 && (n - 1) * divisor < total <= n * divisor && x == total as real / divisor as real
    requires scale > total as real
    ensures 0.0 <= x <= n as real && (x - (n - 1) as real) * scale > x
  {
    var d := divisor as real;
    Undivided(total as real, d);
    assert ((n - 1) * divisor) as real == (n - 1) as real * d && (n * divisor) as real == n as real * d;
    RealSteps(total as real, d, (n - 1) as real, n as real, x, scale);
  }

  lemma Undivided(t: real, d: real)
    requires d > 0.0
    ensures t / d * d == t
  {
  }

  lemma RealSteps(t: real, d: real, k: real, n: real, x: real, scale: real)
    requires d > 0.0 && x * d == t && k * d <= t - 1.0 && 0.0 <= t <= n * d && scale > t
    ensures 0.0 <= x <= n && (x - k) * scale > x
  {
    Distribute(x, k, d);
    Gap(x - k, d, scale, x, t);
    Cancel(n, x, d);
    Cancel(x, 0.0, d);
  }

  lemma Gap(gap: real, d: real, scale: real, x: real, t: real)
    requires d > 0.0 && gap * d >= 1.0 && scale > t >= 0.0 && x * d == t
    ensures gap * scale > x
  {
    Scaled(gap * d, scale);
    Swap(gap, scale, d);
    var a := gap * scale;
    assert a * d > x * d;
    Cancel(a, x, d);
  }

  lemma Swap(x: real, y: real, z: real)
    ensures (x * y) * z == (x * z) * y
  {
  }

  lemma Distribute(x: real, y: real, d: real)
    ensures (x - y) * d == x * d - y * d
  {
  }

  lemma Scaled(x: real, scale: real)
    requires x >= 1.0 && scale >= 0.0
    ensures x * scale >= scale
  {
  }

  lemma Cancel(a: real, b: real, d: real)
    requires d > 0.0 && a * d >= b * d
    ensures a >= b && (a * d > b * d ==> a > b)
  {
  }

  lemma AboveFloor(r: real, x: real, k: real, scale: real)
    requires scale > 0.0 && r * scale >= x * (scale - 1.0) && (x - k) * scale > x
    ensures r > k
  {
  }

  method BuildLayout(vocab: nat, ngramSize: nat, headsPerNgram: nat, base: int, layer: nat, divisor: nat, seed: int,
                     rd: real -> real) returns (l: Layout)
    requires ngramSize >= 1 && divisor >= 1 && Rounds(rd)
    ensures l.ngramSize == ngramSize && l.heads == headsPerNgram && |l.sizes| == (ngramSize - 1) * headsPerNgram
    ensures LaidOut(l, base, layer, divisor)
    ensures |l.mults| == ngramSize && forall k :: 0 <= k < ngramSize ==>
      Admissible(vocab, l.mults[k]) && l.mults[k] == Multiplier(vocab, seed + 10007 * layer, k)
  {
    var heads := (ngramSize - 1) * headsPerNgram;
    var sizes: seq<nat>, offsets: seq<nat>, total: nat := [], [], 0;
    hide HeadSize;
    for head := 0 to heads
      invariant |sizes| == |offsets| == head && total == Sum(sizes)
      invariant forall h :: 0 <= h < head ==> sizes[h] == HeadSize(base, heads, layer, h)
      invariant forall h :: 0 <= h < head ==> offsets[h] == Sum(sizes[..h])
    {
      var size := FindHeadSize(base, heads, layer, head);
      SumSnoc(sizes, size);
      sizes := sizes + [size];
      offsets := offsets + [total];
      total := total + size;
    }
    var mults := BuildLayerMultipliers(vocab, ngramSize, layer, seed);
    hide Pow2;
    if Divides(total, divisor) {
      RoundedCeil(rd, total, divisor);
      PaddedIs(total, divisor);
    }
    hide Rounds, Admissible;
    l := Layout(ngramSize, headsPerNgram, sizes, offsets, total, Ceil(rd(total as real / divisor as real)) * divisor,
                mults);
  }

  method FindHeadSize(base: int, heads: nat, layer: nat, head: nat) returns (size: nat)
    ensures size == HeadSize(base, heads, layer, head) && P.Prime(size)
  {
    var count := layer * heads + head + 1;
    P.NthPrimeGrows(base - 1, count - 1, count);
    size := P.FindNthPrimeAfter(base - 1, count);
  }

  lemma SumSnoc(s: seq<nat>, x: nat)
    ensures Sum(s + [x]) == Sum(s) + x
    ensures forall h :: 0 <= h <= |s| ==> (s + [x])[..h] == s[..h]
    ensures (s + [x])[..|s|] == s
  {
    assert (s + [x])[..|s + [x]| - 1] == s;
  }

  function Padded(total: nat, divisor: nat): nat
    requires divisor >= 1
  {
    ((total + divisor - 1) / divisor) * divisor
  }

  lemma PaddedIs(total: nat, divisor: nat)
    requires divisor >= 1
    ensures Padded(total, divisor) % divisor == 0 && total <= Padded(total, divisor) < total + divisor
  {
    Modular.MultipleMod((total + divisor - 1) / divisor, divisor);
    assert total + divisor - 1 == ((total + divisor - 1) / divisor) * divisor + (total + divisor - 1) % divisor;
  }

  /** All heads of all layers have different prime vocabulary sizes. */
  lemma HeadsDistinct(base: int, heads: nat, layer: nat, head: nat, layer': nat, head': nat)
    requires head < heads && head' < heads
    ensures P.Prime(HeadSize(base, heads, layer, head)) && HeadSize(base, heads, layer, head) >= base
    ensures HeadSize(base, heads, layer, head) == HeadSize(base, heads, layer', head') <==>
      layer == layer' && head == head'
  {
    var a, b := layer * heads + head + 1, layer' * heads + head' + 1;
    P.NthPrimeGrows(base - 1, a - 1, a);
    if a > 1 { P.NthPrimeGrows(base - 1, 0, a); }
    if a == b {
      Modular.DivModUnique(a - 1, heads, layer, head);
      Modular.DivModUnique(b - 1, heads, layer', head');
    } else if a < b {
      P.NthPrimeGrows(base - 1, a, b);
    } else {
      P.NthPrimeGrows(base - 1, b, a);
    }
  }

  lemma Parts(k: nat, n: nat) returns (q: nat, r: nat)
    requires n > 0
    ensures r < n && q * n + r == k
  {
    q, r := k / n, k % n;
  }

  /** The heads, layer by layer, use up the primes from the base on and skip none. */
  lemma HeadsCover(base: int, heads: nat, layer: nat, head: nat, q: int) returns (layer': nat, head': nat)
    requires head < heads && P.Prime(q) && base <= q <= HeadSize(base, heads, layer, head)
    ensures head' < heads && layer' * heads + head' <= layer * heads + head
    ensures q == HeadSize(base, heads, layer', head')
  {
    var n := layer * heads + head + 1;
    P.NthPrimeCovers(base - 1, n, q);
    var k: nat :| 1 <= k <= n && q == P.NthPrime(base - 1, k);
    layer', head' := Parts(k - 1, heads);
  }

  lemma {:induction false} SumGrows(s: seq<nat>, a: nat, b: nat)
    requires a <= b <= |s|
    ensures Sum(s[..a]) <= Sum(s[..b]) <= Sum(s)
    ensures a < b ==> Sum(s[..a]) + s[a] <= Sum(s[..b])
    decreases |s| - a
  {
    assert s[..|s|] == s;
    if a < |s| {
      assert s[..a + 1][..a] == s[..a];
      SumGrows(s, a + 1, if a < b then b else a + 1);
    }
  }

  /** An id lies in its head's range, the ranges do not overlap, and all are below the padded size. */
  lemma IdInOwnRange(l: Layout, base: int, layer: nat, divisor: nat, h: nat, mixed: nat)
    requires divisor >= 1 && LaidOut(l, base, layer, divisor) && h < |l.sizes|
    ensures l.sizes[h] > 0
    ensures l.offsets[h] <= mixed % l.sizes[h] + l.offsets[h] < l.offsets[h] + l.sizes[h] <= l.total
    ensures Divides(l.total, divisor) ==> l.total <= l.padded
    ensures forall g :: h < g < |l.sizes| ==> l.offsets[h] + l.sizes[h] <= l.offsets[g]
  {
    hide HeadSize;
    HeadsDistinct(base, |l.sizes|, layer, h, layer, h);
    SumGrows(l.sizes, h, h + 1);
    assert l.sizes[..h + 1][..h] == l.sizes[..h];
    forall g | h < g < |l.sizes| ensures l.offsets[h] + l.sizes[h] <= l.offsets[g] {
      SumGrows(l.sizes, h, g);
    }
  }

  // ---------------------------------------------------------------------------
  // Shifting within a segment
  // ---------------------------------------------------------------------------

  /** Position of the last end-of-sequence token among the first n, or -1. */
  function LastEos(tokens: seq<nat>, eos: nat, n: nat): (e: int)
    requires n <= |tokens|
    ensures -1 <= e < n
    ensures e >= 0 ==> tokens[e] == eos
    ensures forall k :: e < k < n ==> tokens[k] != eos
  {
    if n == 0 then -1 else if tokens[n - 1] == eos then n - 1 else LastEos(tokens, eos, n - 1)
  }

  /** The shifted tokens; what crosses a segment boundary or the start is filled with eos. */
  function ShiftRight(tokens: seq<nat>, shift: nat, eos: nat): (out: seq<nat>)
    ensures |out| == |tokens|
  {
    if shift == 0 then tokens
    else
      seq(|tokens|, j requires 0 <= j < |tokens| =>
        var segmentStart := LastEos(tokens, eos, j) + 1;
        if j - segmentStart >= shift && j >= shift then tokens[j - shift] else eos)
  }

  /** The token `shift` places back when no eos lies in between, eos otherwise. */
  ghost function Back(tokens: seq<nat>, p: nat, shift: nat, eos: nat): nat
    requires p < |tokens|
  {
    if shift <= p && eos !in tokens[p - shift..p] then tokens[p - shift] else eos
  }

  lemma EosInWindow(tokens: seq<nat>, eos: nat, e: int, p: nat, lo: nat)
    requires lo <= p <= |tokens| && -1 <= e < p && (e >= 0 ==> tokens[e] == eos)
    requires forall k :: e < k < p ==> tokens[k] != eos
    ensures eos in tokens[lo..p] <==> e >= lo
  {
    var window := tokens[lo..p];
    if e >= lo { assert window[e - lo] == eos; }
  }

  lemma {:induction false} ShiftIsBack(tokens: seq<nat>, shift: nat, eos: nat, p: nat)
    requires p < |tokens|
    ensures ShiftRight(tokens, shift, eos)[p] == Back(tokens, p, shift, eos)
  {
    hide LastEos;
    if shift > 0 && shift <= p {
      var e := LastEos(tokens, eos, p);
      EosInWindow(tokens, eos, e, p, p - shift);
    } else if shift == 0 {
      assert tokens[p..p] == [];
    }
  }

  // ---------------------------------------------------------------------------
  // Ids
  // ---------------------------------------------------------------------------

  predicate Usable(l: Layout) {
    && l.ngramSize >= 2 && |l.mults| == l.ngramSize
    && |l.sizes| == |l.offsets| == (l.ngramSize - 1) * l.heads
    && forall h :: 0 <= h < |l.sizes| ==> l.sizes[h] > 0
  }

  /** Exclusive or of the first n shifted tokens times their multipliers. */
  function Mixed(mults: seq<nat>, row: seq<nat>, n: nat): nat
    requires 1 <= n <= |row| <= |mults|
  {
    if n == 1 then row[0] * mults[0] else Xor(Mixed(mults, row, n - 1), row[n - 1] * mults[n - 1])
  }

  /** Hashing tokens of the vocabulary never leaves the non-negative signed 64-bit integers. */
  lemma {:induction false} MixedFits(vocab: nat, mults: seq<nat>, row: seq<nat>, n: nat)
    requires 1 <= n <= |row| <= |mults| && vocab <= MaxLong
    requires forall k :: 0 <= k < |mults| ==> Admissible(vocab, mults[k])
    requires forall k :: 0 <= k < |row| ==> row[k] < vocab
    ensures Mixed(mults, row, n) <= MaxLong
  {
    hide Xor;
    assert Admissible(vocab, mults[n - 1]);
    if n > 1 {
      MixedFits(vocab, mults, row, n - 1);
      MixFits(Mixed(mults, row, n - 1), row[n - 1] * mults[n - 1]);
    }
  }

  /** The ids of the heads of one n-gram order. */
  function BlockIds(l: Layout, row: seq<nat>, ngram: nat): (ids: seq<nat>)
    requires Usable(l) && |row| == l.ngramSize && 2 <= ngram <= l.ngramSize
    ensures |ids| == l.heads
  {
    var lo := (ngram - 2) * l.heads;
    HeadsInside(l, ngram);
    var mixed := Mixed(l.mults, row, ngram);
    seq(l.heads, k requires 0 <= k < l.heads => mixed % l.sizes[lo + k] + l.offsets[lo + k])
  }

  lemma HeadsInside(l: Layout, ngram: nat)
    requires Usable(l) && 2 <= ngram <= l.ngramSize
    ensures 0 <= (ngram - 2) * l.heads && (ngram - 2) * l.heads + l.heads <= |l.sizes|
  {
    Modular.MulMonotone(ngram - 1, l.ngramSize - 1, l.heads);
    assert (ngram - 1) * l.heads == (ngram - 2) * l.heads + l.heads;
  }

  /** The ids of orders 2 .. ngram, one after the other. */
  function HeadIds(l: Layout, row: seq<nat>, ngram: nat): (ids: seq<nat>)
    requires Usable(l) && |row| == l.ngramSize && 1 <= ngram <= l.ngramSize
  {
    if ngram == 1 then [] else HeadIds(l, row, ngram - 1) + BlockIds(l, row, ngram)
  }

  /** What a position hashes: itself and the tokens before it. */
  ghost function BackRow(l: Layout, tokens: seq<nat>, p: nat, eos: nat): (row: seq<nat>)
    requires p < |tokens|
    ensures |row| == l.ngramSize
  {
    seq(l.ngramSize, shift requires 0 <= shift < l.ngramSize => Back(tokens, p, shift, eos))
  }

  /** The ids of one position of a stream. */
  ghost function IdsAt(l: Layout, tokens: seq<nat>, p: nat, eos: nat): seq<nat>
    requires Usable(l) && p < |tokens|
  {
    HeadIds(l, BackRow(l, tokens, p, eos), l.ngramSize)
  }

  ghost function AllIds(l: Layout, tokens: seq<nat>, eos: nat): (rows: seq<seq<nat>>)
    requires Usable(l)
    ensures |rows| == |tokens|
  {
    seq(|tokens|, p requires 0 <= p < |tokens| => IdsAt(l, tokens, p, eos))
  }

  // ---------------------------------------------------------------------------
  // What an id is, from the tokens and the tables alone
  // ---------------------------------------------------------------------------

  /** How many of the first n tokens back have bit i set in their product with their own multiplier. */
  ghost function BitCount(mults: seq<nat>, tokens: seq<nat>, p: nat, eos: nat, n: nat, i: nat): nat
    requires n <= |mults| && p < |tokens|
  {
    if n == 0 then 0
    else BitCount(mults, tokens, p, eos, n - 1, i) + Bit(Back(tokens, p, n - 1, eos) * mults[n - 1], i)
  }

  /** The hash has exactly the bits that an odd number of those products have. */
  ghost predicate IsHash(mults: seq<nat>, tokens: seq<nat>, p: nat, eos: nat, order: nat, hash: nat)
    requires order <= |mults| && p < |tokens|
  {
    forall i: nat :: Bit(hash, i) == BitCount(mults, tokens, p, eos, order, i) % 2
  }

  /** The id of a head of an order: the hash of that many tokens, reduced by the head's size, in the head's range. */
  ghost predicate IsId(l: Layout, tokens: seq<nat>, p: nat, eos: nat, order: nat, head: nat, id: nat)
    requires Usable(l) && p < |tokens| && 2 <= order <= l.ngramSize && head < l.heads
  {
    HeadsInside(l, order);
    var h := (order - 2) * l.heads + head;
    exists hash :: IsHash(l.mults, tokens, p, eos, order, hash) && id == hash % l.sizes[h] + l.offsets[h]
  }

  /** The ids of a position: of every order from 2, and within an order of every head. */
  ghost predicate AreIds(l: Layout, tokens: seq<nat>, p: nat, eos: nat, ids: seq<nat>)
    requires Usable(l) && p < |tokens|
  {
    && |ids| == |l.sizes|
    && forall order, head: nat | 2 <= order <= l.ngramSize && head < l.heads ::
      HasId(l, tokens, p, eos, order, head, ids)
  }

  ghost predicate HasId(l: Layout, tokens: seq<nat>, p: nat, eos: nat, order: nat, head: nat, ids: seq<nat>)
    requires Usable(l) && p < |tokens| && 2 <= order <= l.ngramSize && head < l.heads && |ids| == |l.sizes|
  {
    HeadsInside(l, order);
    IsId(l, tokens, p, eos, order, head, ids[(order - 2) * l.heads + head])
  }

  lemma {:induction false} MixedIsHash(l: Layout, tokens: seq<nat>, p: nat, eos: nat, n: nat)
    requires p < |tokens| && 1 <= n <= l.ngramSize == |l.mults|
    ensures IsHash(l.mults, tokens, p, eos, n, Mixed(l.mults, BackRow(l, tokens, p, eos), n))
  {
    hide Back, Xor, Bit;
    var row := BackRow(l, tokens, p, eos);
    var product := row[n - 1] * l.mults[n - 1];
    if n > 1 { MixedIsHash(l, tokens, p, eos, n - 1); }
    forall i: nat ensures Bit(Mixed(l.mults, row, n), i) == BitCount(l.mults, tokens, p, eos, n, i) % 2 {
      BitSmall(product, i);
      assert BitCount(l.mults, tokens, p, eos, n, i) == BitCount(l.mults, tokens, p, eos, n - 1, i) + Bit(product, i);
      if n > 1 {
        XorBit(Mixed(l.mults, row, n - 1), product, i);
      } else {
        assert BitCount(l.mults, tokens, p, eos, 0, i) == 0;
      }
    }
  }

  lemma {:induction false} HeadIdsGrow(l: Layout, row: seq<nat>, a: nat, b: nat)
    requires Usable(l) && |row| == l.ngramSize && 1 <= a <= b <= l.ngramSize
    ensures HeadIds(l, row, a) <= HeadIds(l, row, b)
  {
    hide BlockIds, Usable;
    if a < b { HeadIdsGrow(l, row, a, b - 1); }
  }

  /** Where the id of this order and head is. */
  ghost function HeadIndex(l: Layout, order: nat, head: nat): (at: nat)
    requires Usable(l) && 2 <= order <= l.ngramSize && head < l.heads
    ensures at < |l.sizes|
  {
    HeadsInside(l, order);
    (order - 2) * l.heads + head
  }

  lemma HeadIdAt(l: Layout, row: seq<nat>, order: nat, head: nat)
    requires Usable(l) && |row| == l.ngramSize && 2 <= order <= l.ngramSize && head < l.heads
    ensures var at := HeadIndex(l, order, head);
      && at < |HeadIds(l, row, l.ngramSize)|
      && HeadIds(l, row, l.ngramSize)[at] == Mixed(l.mults, row, order) % l.sizes[at] + l.offsets[at]
  {
    HeadIdHere(l, row, order, head);
    hide *;
    HeadIdsGrow(l, row, order, l.ngramSize);
  }

  lemma HeadIdHere(l: Layout, row: seq<nat>, order: nat, head: nat)
    requires Usable(l) && |row| == l.ngramSize && 2 <= order <= l.ngramSize && head < l.heads
    ensures var at := HeadIndex(l, order, head);
      && at < |HeadIds(l, row, order)|
      && HeadIds(l, row, order)[at] == Mixed(l.mults, row, order) % l.sizes[at] + l.offsets[at]
  {
    hide Mixed, HeadIds;
    IdsInRange(l, row, order - 1);
    HeadsStep(l, row, order);
    var before, block := HeadIds(l, row, order - 1), BlockIds(l, row, order);
    assert (before + block)[|before| + head] == block[head];
  }

  /** Every position of a stream has the ids of its orders and heads. */
  lemma {:induction false} IdsAre(l: Layout, tokens: seq<nat>, p: nat, eos: nat)
    requires Usable(l) && p < |tokens|
    ensures AreIds(l, tokens, p, eos, IdsAt(l, tokens, p, eos))
  {
    UsableSize(l);
    var row, ids := BackRow(l, tokens, p, eos), IdsAt(l, tokens, p, eos);
    IdsInRange(l, row, l.ngramSize);
    SizesCount(l);
    hide HeadIds, BackRow, Mixed, IsHash, Usable;
    forall order, head: nat | 2 <= order <= l.ngramSize && head < l.heads
      ensures HasId(l, tokens, p, eos, order, head, ids)
    {
      HeadIdAt(l, row, order, head);
      MixedIsHash(l, tokens, p, eos, order);
    }
  }

  /** The ids of the last n positions. */
  ghost predicate LastIds(l: Layout, tokens: seq<nat>, n: nat, eos: nat, rows: seq<seq<nat>>)
    requires Usable(l)
  {
    |rows| == n <= |tokens| && forall i: nat :: i < n ==> AreIds(l, tokens, |tokens| - n + i, eos, rows[i])
  }

  lemma LastIdsAre(l: Layout, tokens: seq<nat>, n: nat, eos: nat)
    requires Usable(l) && 0 < n <= |tokens|
    ensures LastIds(l, tokens, n, eos, TakeLast(AllIds(l, tokens, eos), n))
  {
    var rows := TakeLast(AllIds(l, tokens, eos), n);
    hide AreIds, Usable, IdsAt;
    forall i: nat | i < n ensures AreIds(l, tokens, |tokens| - n + i, eos, rows[i]) {
      IdsAre(l, tokens, |tokens| - n + i, eos);
    }
  }

  lemma SizesCount(l: Layout)
    requires Usable(l)
    ensures |l.sizes| == |l.offsets| == (l.ngramSize - 1) * l.heads
  {
  }

  /** The last k elements, the way a negative slice start selects them: with k = 0 it selects everything. */
  function TakeLast<T>(s: seq<T>, k: nat): seq<T> {
    if k == 0 || k > |s| then s else s[|s| - k..]
  }

  function EosPadding(n: nat, eos: nat): seq<nat> { seq(n, i => eos) }

  function History(l: Layout, context: Option<seq<nat>>, chunk: seq<nat>, eos: nat): seq<nat>
    requires l.ngramSize >= 1
  {
    (if context.Some? then context.value else EosPadding(l.ngramSize - 1, eos)) + chunk
  }

  /** The column of shifted tokens at a position. */
  function ShiftedRow(shifted: seq<seq<nat>>, p: nat): (row: seq<nat>)
    requires forall k :: 0 <= k < |shifted| ==> p < |shifted[k]|
    ensures |row| == |shifted|
  {
    seq(|shifted|, k requires 0 <= k < |shifted| => shifted[k][p])
  }

  /** Mix the shifted streams one position after the other, n-gram order by n-gram order. */
  method NgramIds(l: Layout, chunk: seq<nat>, context: Option<seq<nat>>, eos: nat) returns (rows: seq<seq<nat>>)
    requires Usable(l)
    ensures rows == TakeLast(AllIds(l, History(l, context, chunk, eos), eos), |chunk|)
    ensures chunk != [] ==> LastIds(l, History(l, context, chunk, eos), |chunk|, eos, rows)
  {
    UsableSize(l);
    hide HeadIds, BlockIds, Mixed, Back, Usable, Joined, LastIds;
    var history := History(l, context, chunk, eos);
    var shifted := seq(l.ngramSize, k requires 0 <= k => ShiftRight(history, k, eos));
    var cat: seq<seq<nat>> := seq(|history|, p => []);
    JoinedNone(l, shifted, cat);
    var ngram := 2;
    while ngram <= l.ngramSize
      invariant 2 <= ngram <= l.ngramSize + 1 && |cat| == |history|
      invariant Joined(l, shifted, cat, ngram - 1)
    {
      var block := OrderBlock(l, shifted, |history|, ngram);
      JoinedNext(l, shifted, cat, block, ngram);
      cat := seq(|history|, p requires 0 <= p < |history| => cat[p] + block[p]);
      ngram := ngram + 1;
    }
    JoinedAll(l, history, shifted, cat, eos);
    rows := TakeLast(cat, |chunk|);
    if chunk != [] { LastIdsAre(l, history, |chunk|, eos); }
  }

  /** Every position has the ids of orders 2 .. ngram. */
  ghost predicate Joined(l: Layout, shifted: seq<seq<nat>>, cat: seq<seq<nat>>, ngram: nat) {
    && Usable(l) && |shifted| == l.ngramSize && 1 <= ngram <= l.ngramSize
    && (forall k :: 0 <= k < |shifted| ==> |shifted[k]| == |cat|)
    && (forall p :: 0 <= p < |cat| ==> cat[p] == HeadIds(l, ShiftedRow(shifted, p), ngram))
  }

  lemma JoinedNone(l: Layout, shifted: seq<seq<nat>>, cat: seq<seq<nat>>)
    requires Usable(l) && |shifted| == l.ngramSize && (forall k :: 0 <= k < |shifted| ==> |shifted[k]| == |cat|)
    requires forall p :: 0 <= p < |cat| ==> cat[p] == []
    ensures Joined(l, shifted, cat, 1)
  {
  }

  lemma JoinedNext(l: Layout, shifted: seq<seq<nat>>, cat: seq<seq<nat>>, block: seq<seq<nat>>, ngram: nat)
    requires 2 <= ngram && Joined(l, shifted, cat, ngram - 1) && ngram <= l.ngramSize && |block| == |cat|
    requires forall p :: 0 <= p < |cat| ==> block[p] == BlockIds(l, ShiftedRow(shifted, p), ngram)
    ensures Joined(l, shifted, seq(|cat|, p requires 0 <= p < |cat| => cat[p] + block[p]), ngram)
  {
    hide BlockIds, Usable;
    forall p | 0 <= p < |cat| ensures cat[p] + block[p] == HeadIds(l, ShiftedRow(shifted, p), ngram) {
      HeadsStep(l, ShiftedRow(shifted, p), ngram);
    }
  }

  lemma JoinedAll(l: Layout, history: seq<nat>, shifted: seq<seq<nat>>, cat: seq<seq<nat>>, eos: nat)
    requires Joined(l, shifted, cat, l.ngramSize) &&
      shifted == seq(l.ngramSize, k requires 0 <= k => ShiftRight(history, k, eos))
    requires |cat| == |history|
    ensures Usable(l) && cat == AllIds(l, history, eos)
  {
    hide HeadIds, Usable;
    ShiftedIsBack(l, history, shifted, eos);
  }

  lemma {:induction false} ShiftedIsBack(l: Layout, history: seq<nat>, shifted: seq<seq<nat>>, eos: nat)
    requires shifted == seq(l.ngramSize, k requires 0 <= k => ShiftRight(history, k, eos))
    ensures forall p :: 0 <= p < |history| ==> ShiftedRow(shifted, p) == BackRow(l, history, p, eos)
  {
    hide Back, ShiftRight;
    forall p | 0 <= p < |history| ensures ShiftedRow(shifted, p) == BackRow(l, history, p, eos) {
      var a, b := ShiftedRow(shifted, p), BackRow(l, history, p, eos);
      forall k | 0 <= k < l.ngramSize ensures a[k] == b[k] {
        ShiftIsBack(history, k, eos, p);
      }
    }
  }

  lemma UsableSize(l: Layout)
    requires Usable(l)
    ensures l.ngramSize >= 2 && |l.mults| == l.ngramSize
  {
  }

  lemma HeadsStep(l: Layout, row: seq<nat>, ngram: nat)
    requires Usable(l) && |row| == l.ngramSize && 2 <= ngram <= l.ngramSize
    ensures HeadIds(l, row, ngram) == HeadIds(l, row, ngram - 1) + BlockIds(l, row, ngram)
  {
  }

  /** One n-gram order for all positions: accumulate the exclusive or, then reduce per head. */
  method OrderBlock(l: Layout, shifted: seq<seq<nat>>, n: nat, ngram: nat) returns (block: seq<seq<nat>>)
    requires Usable(l) && 2 <= ngram <= l.ngramSize == |shifted| && forall k :: 0 <= k < |shifted| ==> |shifted[k]| == n
    ensures |block| == n && forall p :: 0 <= p < n ==> block[p] == BlockIds(l, ShiftedRow(shifted, p), ngram)
  {
    UsableSize(l);
    hide Usable, Xor;
    var mixed := seq(n, p requires 0 <= p < n => shifted[0][p] * l.mults[0]);
    var position := 1;
    while position < ngram
      invariant 1 <= position <= ngram && |mixed| == n
      invariant forall p :: 0 <= p < n ==> mixed[p] == Mixed(l.mults, ShiftedRow(shifted, p), position)
    {
      mixed := seq(n, p requires 0 <= p < n => Xor(mixed[p], shifted[position][p] * l.mults[position]));
      position := position + 1;
    }
    HeadsInside(l, ngram);
    SizesPositive(l);
    var lo := (ngram - 2) * l.heads;
    block := seq(n, p requires 0 <= p < n =>
      seq(l.heads, k requires 0 <= k < l.heads => mixed[p] % l.sizes[lo + k] + l.offsets[lo + k]));
  }

  lemma SizesPositive(l: Layout)
    requires Usable(l)
    ensures |l.offsets| == |l.sizes| && forall h :: 0 <= h < |l.sizes| ==> l.sizes[h] > 0
  {
  }

  /** Every id of a position lies in the range of its own head. */
  lemma {:induction false} IdsInRange(l: Layout, row: seq<nat>, ngram: nat)
    requires Usable(l) && |row| == l.ngramSize && 1 <= ngram <= l.ngramSize
    ensures |HeadIds(l, row, ngram)| == (ngram - 1) * l.heads <= |l.sizes|
    ensures forall h :: 0 <= h < |HeadIds(l, row, ngram)| ==>
      l.offsets[h] <= HeadIds(l, row, ngram)[h] < l.offsets[h] + l.sizes[h]
  {
    if ngram > 1 {
      IdsInRange(l, row, ngram - 1);
      HeadsInside(l, ngram);
      assert (ngram - 1) * l.heads == (ngram - 2) * l.heads + l.heads;
      hide Mixed;
      var lo, before, block := (ngram - 2) * l.heads, HeadIds(l, row, ngram - 1), BlockIds(l, row, ngram);
      forall h | 0 <= h < |before + block| ensures l.offsets[h] <= (before + block)[h] < l.offsets[h] + l.sizes[h] {
        if h >= lo { assert h == lo + (h - lo) && (before + block)[h] == block[h - lo]; }
      }
    }
  }

  // ---------------------------------------------------------------------------
  // Streams in chunks
  // ---------------------------------------------------------------------------

  /** The context carried to the next chunk. */
  function Carried(l: Layout, context: Option<seq<nat>>, chunk: seq<nat>): seq<nat>
    requires l.ngramSize >= 1
  {
    TakeLast(if context.Some? then context.value + chunk else chunk, l.ngramSize - 1)
  }

  /** The context stands for everything seen so far. */
  ghost predicate Follows(l: Layout, context: Option<seq<nat>>, seen: seq<nat>)
    requires l.ngramSize >= 1
  {
    if context.None? then seen == [] else context.value == TakeLast(seen, l.ngramSize - 1)
  }

  lemma {:induction false} CarriedFollows(l: Layout, context: Option<seq<nat>>, seen: seq<nat>, chunk: seq<nat>)
    requires l.ngramSize >= 2 && Follows(l, context, seen)
    ensures Follows(l, Some(Carried(l, context, chunk)), seen + chunk)
  {
    var k := l.ngramSize - 1;
    if context.None? {
      assert seen + chunk == chunk;
    } else {
      var all, kept := seen + chunk, context.value + chunk;
      assert kept == all[|all| - |kept|..];
      if k <= |kept| { assert kept[|kept| - k..] == all[|all| - k..]; }
    }
  }

  /** Dropping a prefix that the window does not reach changes nothing. */
  lemma {:induction false} BackOfSuffix(all: seq<nat>, drop: nat, j: nat, shift: nat, eos: nat)
    requires shift <= j && drop + j < |all|
    ensures Back(all[drop..], j, shift, eos) == Back(all, drop + j, shift, eos)
  {
    assert all[drop..][j - shift..j] == all[drop + j - shift..drop + j];
  }

  /** A position sees the same tokens in the carried history as in the whole stream. */
  lemma {:induction false} BackInHistory(l: Layout, context: Option<seq<nat>>, seen: seq<nat>, chunk: seq<nat>, i: nat,
                                         shift: nat, eos: nat)
    requires l.ngramSize >= 2 && Follows(l, context, seen) && i < |chunk| && shift < l.ngramSize
    ensures var history := History(l, context, chunk, eos); var j := |history| - |chunk| + i;
      0 <= j < |history| && Back(history, j, shift, eos) == Back(seen + chunk, |seen| + i, shift, eos)
  {
    hide Back, TakeLast;
    if context.None? {
      assert seen + chunk == chunk;
      BackPastPadding(l, chunk, i, shift, eos);
    } else {
      BackPastContext(l, context.value, seen, chunk, i, shift, eos);
    }
  }

  /** A context of ngramSize - 1 tokens, or of the whole past, is all that a position looks at. */
  lemma {:induction false} BackPastContext(l: Layout, context: seq<nat>, seen: seq<nat>, chunk: seq<nat>, i: nat,
                                           shift: nat, eos: nat)
    requires l.ngramSize >= 2 && context == TakeLast(seen, l.ngramSize - 1) && i < |chunk| && shift < l.ngramSize
    ensures Back(context + chunk, |context| + i, shift, eos) == Back(seen + chunk, |seen| + i, shift, eos)
  {
    var all, drop, j := seen + chunk, |seen| - |context|, |context| + i;
    assert context + chunk == all[drop..];
    assert shift > j ==> drop == 0;
    hide Back, TakeLast;
    if shift <= j {
      BackOfSuffix(all, drop, j, shift, eos);
    } else {
      assert all[0..] == all;
    }
  }

  /** Padding at the start of a stream stands for tokens that do not exist. */
  lemma {:induction false} BackPastPadding(l: Layout, chunk: seq<nat>, i: nat, shift: nat, eos: nat)
    requires l.ngramSize >= 2 && i < |chunk| && shift < l.ngramSize
    ensures var history := History(l, None, chunk, eos); var j := |history| - |chunk| + i;
      0 <= j < |history| && Back(history, j, shift, eos) == Back(chunk, i, shift, eos)
  {
    var history, pad := History(l, None, chunk, eos), l.ngramSize - 1;
    var j := pad + i;
    if shift <= i {
      assert history[pad..] == chunk;
      BackOfSuffix(history, pad, i, shift, eos);
    } else {
      assert history[j - shift..j][0] == eos;
    }
  }

  lemma {:induction false} RowInHistory(l: Layout, context: Option<seq<nat>>, seen: seq<nat>, chunk: seq<nat>, i: nat,
                                        eos: nat)
    requires l.ngramSize >= 2 && Follows(l, context, seen) && i < |chunk|
    ensures var history := History(l, context, chunk, eos); var j := |history| - |chunk| + i;
      0 <= j < |history| && BackRow(l, history, j, eos) == BackRow(l, seen + chunk, |seen| + i, eos)
  {
    hide Back, Follows;
    var history := History(l, context, chunk, eos);
    var j := |history| - |chunk| + i;
    var a, b := BackRow(l, history, j, eos), BackRow(l, seen + chunk, |seen| + i, eos);
    forall k | 0 <= k < l.ngramSize ensures a[k] == b[k] {
      BackInHistory(l, context, seen, chunk, i, k, eos);
    }
  }

  /** Later tokens do not change a position's ids. */
  lemma {:induction false} IdsOfPrefix(l: Layout, tokens: seq<nat>, more: seq<nat>, eos: nat)
    requires Usable(l)
    ensures AllIds(l, tokens + more, eos)[..|tokens|] == AllIds(l, tokens, eos)
  {
    var all := tokens + more;
    forall p: nat | p < |tokens| ensures BackRow(l, all, p, eos) == BackRow(l, tokens, p, eos) {
      forall k | 0 <= k < l.ngramSize ensures Back(all, p, k, eos) == Back(tokens, p, k, eos) {
        if k <= p { assert all[p - k..p] == tokens[p - k..p]; }
      }
    }
    hide HeadIds, Usable;
  }

  ghost function ChunkIds(l: Layout, context: Option<seq<nat>>, chunk: seq<nat>, eos: nat): seq<seq<nat>>
    requires Usable(l)
  {
    TakeLast(AllIds(l, History(l, context, chunk, eos), eos), |chunk|)
  }

  /** A chunk that is not empty gets the ids of its positions in the stream. */
  lemma {:induction false} ChunkIdsAgree(l: Layout, context: Option<seq<nat>>, seen: seq<nat>, chunk: seq<nat>,
                                         eos: nat)
    requires Usable(l) && Follows(l, context, seen) && chunk != []
    ensures ChunkIds(l, context, chunk, eos) == AllIds(l, seen + chunk, eos)[|seen|..]
  {
    UsableSize(l);
    hide HeadIds, Usable, Back, Follows, BackRow, History;
    var history := History(l, context, chunk, eos);
    var rows, all, ids := ChunkIds(l, context, chunk, eos), AllIds(l, seen + chunk, eos), AllIds(l, history, eos);
    HistoryLength(l, context, chunk, eos);
    var drop := |history| - |chunk|;
    var mine, theirs := ids[drop..], all[|seen|..];
    forall i | 0 <= i < |chunk| ensures mine[i] == theirs[i] {
      RowInHistory(l, context, seen, chunk, i, eos);
    }
    assert rows == mine;
  }

  lemma HistoryLength(l: Layout, context: Option<seq<nat>>, chunk: seq<nat>, eos: nat)
    requires l.ngramSize >= 1
    ensures |History(l, context, chunk, eos)| == |chunk| + if context.Some? then |context.value| else l.ngramSize - 1
  {
  }

  /** The ids of a stream fed in chunks, with the context carried along. */
  ghost function RunChunks(l: Layout, context: Option<seq<nat>>, chunks: seq<seq<nat>>, eos: nat): seq<seq<nat>>
    requires Usable(l)
    decreases |chunks|
  {
    if chunks == [] then []
    else ChunkIds(l, context, chunks[0], eos) + RunChunks(l, Some(Carried(l, context, chunks[0])), chunks[1..], eos)
  }

  function Flatten(chunks: seq<seq<nat>>): seq<nat> {
    if chunks == [] then [] else chunks[0] + Flatten(chunks[1..])
  }

  ghost predicate NoneEmpty(chunks: seq<seq<nat>>) {
    forall c :: 0 <= c < |chunks| ==> chunks[c] != []
  }

  /** Chunked ids are the ids of the whole stream, for every split into non-empty chunks. */
  lemma {:induction false} ChunksAgree(l: Layout, context: Option<seq<nat>>, seen: seq<nat>, chunks: seq<seq<nat>>,
                                       eos: nat)
    requires Usable(l) && Follows(l, context, seen) && NoneEmpty(chunks)
    ensures RunChunks(l, context, chunks, eos) == AllIds(l, seen + Flatten(chunks), eos)[|seen|..]
    decreases |chunks|
  {
    if chunks == [] {
      assert seen + [] == seen;
    } else {
      UsableSize(l);
      hide ChunkIds, AllIds, Usable, Follows, Carried, RunChunks;
      var chunk, rest := chunks[0], chunks[1..];
      var before, all := seen + chunk, seen + Flatten(chunks);
      assert before + Flatten(rest) == all;
      CarriedFollows(l, context, seen, chunk);
      ChunkIdsAgree(l, context, seen, chunk, eos);
      assert NoneEmpty(rest);
      hide NoneEmpty, Flatten;
      ChunksAgree(l, Some(Carried(l, context, chunk)), before, rest, eos);
      IdsOfPrefix(l, before, Flatten(rest), eos);
      RunFirst(l, context, chunks, eos);
      Spliced(AllIds(l, all, eos), AllIds(l, before, eos), |seen|, |before|);
    }
  }

  lemma RunFirst(l: Layout, context: Option<seq<nat>>, chunks: seq<seq<nat>>, eos: nat)
    requires Usable(l) && chunks != []
    ensures RunChunks(l, context, chunks, eos)
         == ChunkIds(l, context, chunks[0], eos) + RunChunks(l, Some(Carried(l, context, chunks[0])), chunks[1..], eos)
  {
  }

  lemma Spliced<T>(all: seq<T>, head: seq<T>, a: nat, b: nat)
    requires a <= b <= |all| && all[..b] == head
    ensures head[a..] + all[b..] == all[a..]
  {
  }

  /** An empty chunk returns the rows of its whole context. */
  lemma {:induction false} EmptyChunksAdd(l: Layout, context: Option<seq<nat>>, chunks: seq<seq<nat>>, eos: nat)
    requires Usable(l)
    ensures |RunChunks(l, context, chunks, eos)| >= |Flatten(chunks)|
    ensures (context.None? || context.value != []) && !NoneEmpty(chunks) ==>
      |RunChunks(l, context, chunks, eos)| > |Flatten(chunks)|
    decreases |chunks|
  {
    if chunks != [] {
      UsableSize(l);
      hide AllIds, Usable;
      EmptyChunksAdd(l, Some(Carried(l, context, chunks[0])), chunks[1..], eos);
      assert chunks[0] != [] && NoneEmpty(chunks[1..]) ==> NoneEmpty(chunks) by {
        assert forall c :: 0 < c < |chunks| ==> chunks[c] == chunks[1..][c - 1];
      }
    }
  }

  /** Feeding a stream in chunks gives the ids of the whole stream exactly when no chunk is empty. */
  lemma ChunkInvariance(l: Layout, chunks: seq<seq<nat>>, eos: nat)
    requires Usable(l)
    ensures RunChunks(l, None, chunks, eos) == AllIds(l, Flatten(chunks), eos) <==> NoneEmpty(chunks)
  {
    UsableSize(l);
    if NoneEmpty(chunks) {
      ChunksAgree(l, None, [], chunks, eos);
      assert [] + Flatten(chunks) == Flatten(chunks);
    } else {
      EmptyChunksAdd(l, None, chunks, eos);
    }
  }

  /** The part of the decoder state that carries the hashing context between calls. */
  class NGramState {
    const l: Layout
    const eos: nat
    var context: Option<seq<nat>>

    constructor (l: Layout, eos: nat)
      ensures this.l == l && this.eos == eos && context == None
    {
      this.l, this.eos, context := l, eos, None;
    }

    /** Hash one chunk, then advance the context. */
    method Forward(chunk: seq<nat>) returns (rows: seq<seq<nat>>)
      requires Usable(l)
      modifies this`context
      ensures rows == ChunkIds(l, old(context), chunk, eos)
      ensures context == Some(Carried(l, old(context), chunk))
    {
      rows := NgramIds(l, chunk, context, eos);
      UsableSize(l);
      var history := if context.Some? then context.value + chunk else chunk;
      context := Some(TakeLast(history, l.ngramSize - 1));
    }
  }

  /** A whole stream through one state. */
  method HashStream(l: Layout, chunks: seq<seq<nat>>, eos: nat) returns (rows: seq<seq<nat>>)
    requires Usable(l)
    ensures rows == RunChunks(l, None, chunks, eos)
    ensures NoneEmpty(chunks) ==> rows == AllIds(l, Flatten(chunks), eos)
  {
    hide Usable, ChunkIds, AllIds, Carried;
    var state := new NGramState(l, eos);
    rows := [];
    for i := 0 to |chunks|
      invariant state.l == l && state.eos == eos
      invariant rows + RunChunks(l, state.context, chunks[i..], eos) == RunChunks(l, None, chunks, eos)
    {
      ghost var was, context := rows, state.context;
      var more := state.Forward(chunks[i]);
      assert chunks[i..][0] == chunks[i] && chunks[i..][1..] == chunks[i + 1..];
      assert was + (more + RunChunks(l, state.context, chunks[i + 1..], eos)) ==
        (was + more) + RunChunks(l, state.context, chunks[i + 1..], eos);
      rows := rows + more;
    }
    assert chunks[|chunks|..] == [] && rows + [] == rows;
    ChunkInvariance(l, chunks, eos);
  }
}
