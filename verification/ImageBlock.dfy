/**
 * The block of placeholder tokens for one image.
 *
 * Padding to a multiple of four, a start mark, the grid with its rows interleaved in
 * pairs, padding, an end mark. The permutation returned beside it says which patch
 * fills each patch token. Slots are counted row by row, with one slot at the end of
 * each row for its line end.
 */
module ImageBlock {
  import Modular

  datatype Kind = Start | Pad | Patch | NewLine | End

  const PadTo: nat := 4

  // ---------------------------------------------------------------------------
  // The grid
  // ---------------------------------------------------------------------------

  function RowLen(w: nat): nat { w + 1 }

  /** Rows including the one that makes their number even. */
  function Rows(h: nat): nat { h + h % 2 }

  function Slots(h: nat, w: nat): nat { Rows(h) * RowLen(w) }

  /** Two tokens when the number of slot pairs is odd. */
  function PadLast(h: nat, w: nat): nat { ((Rows(h) / 2 * RowLen(w)) % 2) * 2 }

  function GridTokens(h: nat, w: nat): nat {
    var n := h * (w + 1) + 2;
    var n' := if h % 2 == 1 then n + w + 1 else n;
    n' + ((h + 1) / 2 * (w + 1)) % 2 * 2
  }

  function Row(w: nat, t: nat): nat { t / RowLen(w) }

  function Col(w: nat, t: nat): nat { t % RowLen(w) }

  function Slot(w: nat, row: nat, col: nat): nat { row * RowLen(w) + col }

  /** What row-major slot t holds: h rows of w patches and a line end, then a padding row. */
  function SlotKind(h: nat, w: nat, t: nat): Kind {
    if Row(w, t) < h then (if Col(w, t) < w then Patch else NewLine) else Pad
  }

  function PatchNumber(w: nat, row: nat, col: nat): nat { row * w + col }

  /** The patch of a slot, or -1. */
  function SlotPatch(h: nat, w: nat, t: nat): int {
    if Row(w, t) < h && Col(w, t) < w then PatchNumber(w, Row(w, t), Col(w, t)) else -1
  }

  /** Row and column of the s-th token: within a pair of rows, column by column. */
  function OrderRow(w: nat, s: nat): nat { 2 * (s / (2 * RowLen(w))) + (s % (2 * RowLen(w))) % 2 }

  function OrderCol(w: nat, s: nat): nat { (s % (2 * RowLen(w))) / 2 }

  function OrderAt(w: nat, s: nat): nat { Slot(w, OrderRow(w, s), OrderCol(w, s)) }

  /** The place of a slot in the final order. */
  function PlaceOf(w: nat, t: nat): nat { (Row(w, t) / 2) * (2 * RowLen(w)) + 2 * Col(w, t) + Row(w, t) % 2 }

  lemma SlotParts(w: nat, row: nat, col: nat)
    requires col <= w
    ensures Row(w, Slot(w, row, col)) == row && Col(w, Slot(w, row, col)) == col
  {
    Modular.DivModUnique(Slot(w, row, col), RowLen(w), row, col);
  }

  lemma PartsSlot(w: nat, t: nat)
    ensures Col(w, t) <= w && Slot(w, Row(w, t), Col(w, t)) == t
  {
    assert t == (t / RowLen(w)) * RowLen(w) + t % RowLen(w);
  }

  lemma SlotInside(h: nat, w: nat, row: nat, col: nat)
    requires col <= w
    ensures Slot(w, row, col) < Slots(h, w) <==> row < Rows(h)
  {
    var n := RowLen(w);
    assert (row + 1) * n == row * n + n;
    if row < Rows(h) {
      Modular.MulMonotone(row + 1, Rows(h), n);
    } else {
      Modular.MulMonotone(Rows(h), row, n);
    }
  }

  lemma OrderParts(w: nat, s: nat)
    ensures Row(w, OrderAt(w, s)) == OrderRow(w, s) && Col(w, OrderAt(w, s)) == OrderCol(w, s) <= w
  {
    SlotParts(w, OrderRow(w, s), OrderCol(w, s));
  }

  /** The reordering moves every slot to exactly one place. */
  lemma OrderInverts(w: nat, s: nat)
    ensures PlaceOf(w, OrderAt(w, s)) == s
  {
    var m := 2 * RowLen(w);
    OrderParts(w, s);
    assert s == (s / m) * m + s % m;
    assert OrderRow(w, s) / 2 == s / m && OrderRow(w, s) % 2 == (s % m) % 2;
  }

  lemma PlaceInverts(w: nat, t: nat)
    ensures OrderAt(w, PlaceOf(w, t)) == t
  {
    var row, col := Row(w, t), Col(w, t);
    PartsSlot(w, t);
    PlaceParts(w, row, col);
  }

  lemma PlaceParts(w: nat, row: nat, col: nat)
    requires col <= w
    ensures var s := (row / 2) * (2 * RowLen(w)) + 2 * col + row % 2;
      s >= 0 && OrderRow(w, s) == row && OrderCol(w, s) == col
  {
    var m, rest := 2 * RowLen(w), 2 * col + row % 2;
    var s := (row / 2) * m + rest;
    assert (row / 2) * m >= 0;
    Modular.DivModUnique(s, m, row / 2, rest);
    assert rest % 2 == row % 2 && rest / 2 == col;
  }

  lemma HalfSlots(h: nat, w: nat)
    ensures (Rows(h) / 2) * (2 * RowLen(w)) == Slots(h, w) && Rows(h) == 2 * (Rows(h) / 2)
  {
    var half := Rows(h) / 2;
    assert half * (2 * RowLen(w)) == (2 * half) * RowLen(w);
  }

  /** Both stay inside the grid. */
  lemma OrderInside(h: nat, w: nat, s: nat)
    requires s < Slots(h, w)
    ensures OrderAt(w, s) < Slots(h, w) && PlaceOf(w, s) < Slots(h, w)
  {
    HalfSlots(h, w);
    hide Slots, Slot, Row, Col;
    OrderParts(w, s);
    QuotientBelow(s, Rows(h) / 2, 2 * RowLen(w));
    SlotInside(h, w, OrderRow(w, s), OrderCol(w, s));
    PartsSlot(w, s);
    SlotInside(h, w, Row(w, s), Col(w, s));
    PlaceBelow(Row(w, s), Col(w, s), Rows(h) / 2, w);
  }

  lemma PlaceBelow(row: nat, col: nat, half: nat, w: nat)
    requires row < 2 * half && col <= w
    ensures (row / 2) * (2 * RowLen(w)) + 2 * col + row % 2 < half * (2 * RowLen(w))
  {
    var m := 2 * RowLen(w);
    Modular.MulMonotone(row / 2 + 1, half, m);
    assert (row / 2 + 1) * m == (row / 2) * m + m;
  }

  lemma QuotientBelow(s: nat, k: nat, n: nat)
    requires n > 0 && s < k * n
    ensures s / n < k
  {
    assert s == (s / n) * n + s % n;
    if s / n >= k { Modular.MulMonotone(k, s / n, n); }
  }

  lemma PatchIff(h: nat, w: nat, t: nat)
    ensures SlotKind(h, w, t) == Patch <==> SlotPatch(h, w, t) >= 0
    ensures SlotPatch(h, w, t) >= 0 ==> SlotPatch(h, w, t) < h * w
  {
    var row, col := Row(w, t), Col(w, t);
    if row < h && col < w {
      Modular.MulMonotone(row + 1, h, w);
      assert (row + 1) * w == row * w + w;
    }
  }

  lemma PatchParts(w: nat, row: nat, col: nat)
    requires col < w
    ensures PatchNumber(w, row, col) / w == row && PatchNumber(w, row, col) % w == col
  {
    Modular.DivModUnique(PatchNumber(w, row, col), w, row, col);
  }

  /** The slot of a patch follows from its number. */
  lemma PatchSlot(h: nat, w: nat, t: nat)
    requires SlotPatch(h, w, t) >= 0
    ensures w > 0 && t == Slot(w, SlotPatch(h, w, t) / w, SlotPatch(h, w, t) % w)
  {
    PatchParts(w, Row(w, t), Col(w, t));
    PartsSlot(w, t);
  }

  /** Every patch has a slot. */
  lemma PatchHasSlot(h: nat, w: nat, q: nat) returns (t: nat)
    requires w > 0 && q < h * w
    ensures t < Slots(h, w) && SlotPatch(h, w, t) == q
  {
    var row, col := q / w, q % w;
    QuotientBelow(q, h, w);
    t := Slot(w, row, col);
    SlotParts(w, row, col);
    SlotInside(h, w, row, col);
    assert q == row * w + col;
  }

  // ---------------------------------------------------------------------------
  // Building the block
  // ---------------------------------------------------------------------------

  function Repeat(k: Kind, n: nat): seq<Kind> { seq(n, i => k) }

  /** The grid's kinds in row-major order, as `rows` rows of w patches and a line end. */
  function GridRows(w: nat, rows: nat): (kinds: seq<Kind>)
    ensures |kinds| == rows * RowLen(w)
  {
    if rows == 0 then []
    else
      assert rows * RowLen(w) == (rows - 1) * RowLen(w) + RowLen(w);
      GridRows(w, rows - 1) + (Repeat(Patch, w) + [NewLine])
  }

  lemma {:induction false} GridRowsAt(h: nat, w: nat, rows: nat, t: nat)
    requires rows <= h && t < |GridRows(w, rows)|
    ensures GridRows(w, rows)[t] == SlotKind(h, w, t)
  {
    if t < |GridRows(w, rows - 1)| {
      GridRowsAt(h, w, rows - 1, t);
    } else {
      var col := t - (rows - 1) * RowLen(w);
      assert rows * RowLen(w) == (rows - 1) * RowLen(w) + RowLen(w);
      assert t == Slot(w, rows - 1, col);
      SlotParts(w, rows - 1, col);
    }
  }

  function RowMajorKinds(h: nat, w: nat): (kinds: seq<Kind>)
    ensures |kinds| == Slots(h, w)
  {
    assert Slots(h, w) == h * RowLen(w) + (h % 2) * RowLen(w);
    GridRows(w, h) + Repeat(Pad, RowLen(w) * (h % 2))
  }

  lemma RowMajorAt(h: nat, w: nat, t: nat)
    requires t < Slots(h, w)
    ensures RowMajorKinds(h, w)[t] == SlotKind(h, w, t)
  {
    if t < |GridRows(w, h)| {
      GridRowsAt(h, w, h, t);
    } else {
      PastRows(h, w, t);
    }
  }

  lemma PastRows(h: nat, w: nat, t: nat)
    requires t >= h * RowLen(w)
    ensures Row(w, t) >= h
  {
    var n := RowLen(w);
    PartsSlot(w, t);
    assert (Row(w, t) + 1) * n == Row(w, t) * n + n;
    if Row(w, t) < h { Modular.MulMonotone(Row(w, t) + 1, h, n); }
  }

  /** The grid's tokens in their final order. */
  function Content(h: nat, w: nat): (kinds: seq<Kind>)
    ensures |kinds| == Slots(h, w)
  {
    seq(Slots(h, w), s requires 0 <= s < Slots(h, w) => SlotKind(h, w, OrderAt(w, s)))
  }

  /** Indices of the patch tokens among the first n. */
  function PatchTokens(h: nat, w: nat, n: nat): (idx: seq<nat>)
    ensures forall k :: 0 <= k < |idx| ==> idx[k] < n
  {
    if n == 0 then []
    else PatchTokens(h, w, n - 1) + if SlotKind(h, w, OrderAt(w, n - 1)) == Patch then [n - 1] else []
  }

  /** The patches behind the first n tokens, in token order. */
  function PermUpTo(h: nat, w: nat, n: nat): seq<int> {
    if n == 0 then []
    else
      var q := SlotPatch(h, w, OrderAt(w, n - 1));
      PermUpTo(h, w, n - 1) + if q >= 0 then [q] else []
  }

  lemma PermNext(h: nat, w: nat, s: nat)
    ensures PermUpTo(h, w, s + 1) == PermUpTo(h, w, s) + if SlotPatch(h, w, OrderAt(w, s)) >= 0
      then [SlotPatch(h, w, OrderAt(w, s))] else []
  {
    assert s + 1 - 1 == s;
  }

  function Perm(h: nat, w: nat): seq<int> { PermUpTo(h, w, Slots(h, w)) }

  lemma {:induction false} PermAt(h: nat, w: nat, n: nat)
    ensures |PermUpTo(h, w, n)| == |PatchTokens(h, w, n)|
    ensures forall k :: 0 <= k < |PermUpTo(h, w, n)| ==>
      PermUpTo(h, w, n)[k] == SlotPatch(h, w, OrderAt(w, PatchTokens(h, w, n)[k]))
  {
    if n > 0 {
      PermAt(h, w, n - 1);
      hide OrderAt, SlotKind, SlotPatch;
      PatchIff(h, w, OrderAt(w, n - 1));
    }
  }

  /** Fill the slot of every patch, and leave -1 elsewhere. */
  method FillImageIndex(h: nat, w: nat) returns (index: array<int>)
    ensures fresh(index) && index.Length == Slots(h, w)
    ensures forall t :: 0 <= t < index.Length ==> index[t] == SlotPatch(h, w, t)
  {
    hide Slot, PatchNumber, Row, Col;
    index := new int[Slots(h, w)](i => -1);
    for row := 0 to h
      invariant forall t :: 0 <= t < index.Length ==> index[t] == FilledTo(h, w, row, 0, t)
    {
      for col := 0 to w
        invariant forall t :: 0 <= t < index.Length ==> index[t] == FilledTo(h, w, row, col, t)
      {
        SlotInside(h, w, row, col);
        FillNext(h, w, row, col);
        index[Slot(w, row, col)] := PatchNumber(w, row, col);
        forall t | 0 <= t < index.Length ensures index[t] == FilledTo(h, w, row, col + 1, t) {
          assert FilledTo(h, w, row, col + 1, t) == if t == Slot(w, row, col) then PatchNumber(w, row, col)
            else FilledTo(h, w, row, col, t);
        }
      }
      FillRow(h, w, row);
    }
  }

  /** The patch of slot t if it comes before (row, col), -1 otherwise. */
  function FilledTo(h: nat, w: nat, row: nat, col: nat, t: nat): int {
    if Row(w, t) < row || (Row(w, t) == row && Col(w, t) < col) then SlotPatch(h, w, t) else -1
  }

  lemma FillNext(h: nat, w: nat, row: nat, col: nat)
    requires row < h && col < w
    ensures forall t: nat ::
      FilledTo(h, w, row, col + 1, t) == if t == Slot(w, row, col) then PatchNumber(w, row, col)
        else FilledTo(h, w, row, col, t)
  {
    hide Slot, PatchNumber, Row, Col;
    SlotParts(w, row, col);
    forall t: nat
      ensures FilledTo(h, w, row, col + 1, t) == if t == Slot(w, row, col) then PatchNumber(w, row, col)
        else FilledTo(h, w, row, col, t)
    {
      PartsSlot(w, t);
    }
  }

  lemma FillRow(h: nat, w: nat, row: nat)
    requires row < h
    ensures forall t: nat :: FilledTo(h, w, row + 1, 0, t) == FilledTo(h, w, row, w, t)
  {
    hide PatchNumber;
  }

  // ---------------------------------------------------------------------------
  // Where every token and every patch lies
  // ---------------------------------------------------------------------------

  /**
   * The block in full: padding up to a multiple of four less one, a start mark, the rows in pairs and
   * a pair column by column, two more tokens if that leaves half a group, and an end mark.
   */
  ghost predicate IsBlock(h: nat, w: nat, startPos: nat, kinds: seq<Kind>) {
    var pad, rows := 3 - startPos % 4, if h % 2 == 0 then h else h + 1;
    var content := rows * (w + 1);
    var more, from := if content % 4 == 0 then 0 else 2, pad + 1;
    && |kinds| == pad + 1 + content + more + 1
    && (forall i :: 0 <= i < pad ==> kinds[i] == Pad) && kinds[pad] == Start
    && (forall row: nat, col: nat :: row < rows && col <= w ==>
          TokenAt(h, w, kinds, from, row, col))
    && (forall i :: 0 <= i < |kinds| && pad + 1 + content <= i < |kinds| - 1 ==> kinds[i] == Pad)
    && kinds[|kinds| - 1] == End
  }

  /**
   * The token of this row and column: pairs of rows before it, columns of its pair before it, and
   * the upper row first.
   */
  ghost predicate TokenAt(h: nat, w: nat, kinds: seq<Kind>, from: nat, row: nat, col: nat) {
    var i := from + (row / 2) * (2 * (w + 1)) + 2 * col + row % 2;
    0 <= i < |kinds| && kinds[i] == if row < h then (if col < w then Patch else NewLine) else Pad
  }

  /** Patches come in the same order; a last row without a partner is read straight. */
  ghost predicate IsPerm(h: nat, w: nat, perm: seq<int>) {
    |perm| == h * w && forall row: nat, col: nat :: row < h && col < w ==> PatchAt(h, w, perm, row, col)
  }

  ghost predicate PatchAt(h: nat, w: nat, perm: seq<int>, row: nat, col: nat) {
    var k := (row / 2) * (2 * w) + if h % 2 == 1 && row == h - 1 then col else 2 * col + row % 2;
    0 <= k < |perm| && perm[k] == row * w + col
  }

  lemma ContentAt(h: nat, w: nat, row: nat, col: nat)
    requires row < Rows(h) && col <= w
    ensures var s := (row / 2) * (2 * (w + 1)) + 2 * col + row % 2;
      && 0 <= s < Slots(h, w)
      && Content(h, w)[s] == (if row < h then (if col < w then Patch else NewLine) else Pad)
  {
    var t := Slot(w, row, col);
    SlotParts(w, row, col);
    SlotInside(h, w, row, col);
    PlaceInverts(w, t);
    OrderInside(h, w, t);
    hide OrderAt, Slots, Slot, Row, Col;
    assert PlaceOf(w, t) == (row / 2) * (2 * (w + 1)) + 2 * col + row % 2;
  }

  /** How many patch tokens come before the token at s. */
  function PatchesBefore(h: nat, w: nat, pair: nat, x: nat): nat {
    if 2 * pair + 1 < h then pair * (2 * w) + (if x < 2 * w then x else 2 * w)
    else if 2 * pair < h then pair * (2 * w) + (if (x + 1) / 2 < w then (x + 1) / 2 else w)
    else h * w
  }

  /** The pair of rows that the token at s belongs to, and its place in the pair. */
  function Pair(w: nat, s: nat): nat { s / (2 * w + 2) }

  function InPair(w: nat, s: nat): nat { s % (2 * w + 2) }

  lemma PairNext(w: nat, s: nat)
    ensures InPair(w, s) < 2 * w + 2
    ensures InPair(w, s) + 1 < 2 * w + 2 ==> Pair(w, s + 1) == Pair(w, s) && InPair(w, s + 1) == InPair(w, s) + 1
    ensures InPair(w, s) + 1 == 2 * w + 2 ==> Pair(w, s + 1) == Pair(w, s) + 1 && InPair(w, s + 1) == 0
  {
    Modular.NextDivMod(s, 2 * RowLen(w));
  }

  lemma PairOf(h: nat, w: nat, s: nat)
    requires s < Slots(h, w)
    ensures 2 * Pair(w, s) < h
    ensures SlotKind(h, w, OrderAt(w, s)) == Patch <==> 2 * Pair(w, s) + InPair(w, s) % 2 < h && InPair(w, s) / 2 < w
  {
    OrderParts(w, s);
    HalfSlots(h, w);
    QuotientBelow(s, Rows(h) / 2, 2 * RowLen(w));
    hide OrderAt, Slots, Row, Col;
  }

  lemma PatchesStep(h: nat, w: nat, s: nat)
    requires s < Slots(h, w)
    ensures PatchesBefore(h, w, Pair(w, s + 1), InPair(w, s + 1)) ==
      PatchesBefore(h, w, Pair(w, s), InPair(w, s)) + if SlotKind(h, w, OrderAt(w, s)) == Patch then 1 else 0
  {
    PairNext(w, s);
    PairOf(h, w, s);
    hide SlotKind, OrderAt, Slots, Pair, InPair;
    PlaceStep(h, w, Pair(w, s), InPair(w, s));
    hide PatchesBefore;
    if InPair(w, s) == 2 * w + 1 { PairDone(h, w, Pair(w, s), InPair(w, s)); }
  }

  lemma PlaceStep(h: nat, w: nat, pair: nat, x: nat)
    requires 2 * pair < h && x < 2 * w + 2
    ensures PatchesBefore(h, w, pair, x + 1) == PatchesBefore(h, w, pair, x) + if 2 * pair + x % 2 < h && x / 2 < w
      then 1 else 0
  {
    var before := pair * (2 * w);
  }

  lemma PairDone(h: nat, w: nat, pair: nat, x: nat)
    requires x == 2 * w + 1 && 2 * pair < h
    ensures PatchesBefore(h, w, pair + 1, 0) == PatchesBefore(h, w, pair, x) == PatchesBefore(h, w, pair, x + 1)
  {
    assert (pair + 1) * (2 * w) == pair * (2 * w) + 2 * w;
    if h == 2 * pair + 1 {
      assert h * w == pair * (2 * w) + w;
    } else if h == 2 * pair + 2 {
      assert h * w == (pair + 1) * (2 * w);
    }
  }

  lemma {:induction false} PatchesCounted(h: nat, w: nat, s: nat)
    requires s <= Slots(h, w)
    ensures |PermUpTo(h, w, s)| == PatchesBefore(h, w, Pair(w, s), InPair(w, s))
  {
    hide SlotKind, SlotPatch, OrderAt, Slots, PatchesBefore, Pair, InPair;
    if s == 0 {
      NoneBefore(h, w);
    } else {
      PatchesCounted(h, w, s - 1);
      PatchesStep(h, w, s - 1);
      assert s - 1 + 1 == s;
      PatchIff(h, w, OrderAt(w, s - 1));
    }
  }

  lemma NoneBefore(h: nat, w: nat)
    ensures PatchesBefore(h, w, Pair(w, 0), InPair(w, 0)) == 0
  {
    Modular.DivModUnique(0, 2 * (w + 1), 0, 0);
    assert h == 0 ==> h * w == 0;
  }

  lemma {:induction false} PermExtends(h: nat, w: nat, s: nat, n: nat)
    requires s <= n
    ensures PermUpTo(h, w, s) <= PermUpTo(h, w, n)
    decreases n
  {
    if s < n { PermExtends(h, w, s, n - 1); }
  }

  /** The permutation, entry by entry. */
  lemma PermIs(h: nat, w: nat)
    ensures IsPerm(h, w, Perm(h, w))
  {
    PermIsPermutation(h, w);
    forall row: nat, col: nat | row < h && col < w ensures PatchAt(h, w, Perm(h, w), row, col) {
      PatchIs(h, w, row, col);
    }
  }

  lemma PatchIs(h: nat, w: nat, row: nat, col: nat)
    requires row < h && col < w
    ensures PatchAt(h, w, Perm(h, w), row, col)
  {
    var t, x := Slot(w, row, col), 2 * col + row % 2;
    var s := PlaceOf(w, t);
    PatchPlace(h, w, row, col);
    PatchesCounted(h, w, s);
    PermNext(h, w, s);
    PermExtends(h, w, s + 1, Slots(h, w));
    PatchNumberNat(row, w, col);
    PatchCount(h, w, row, col);
    hide PermUpTo, Slots, PatchesBefore, SlotPatch, OrderAt, PlaceOf, Slot, Pair, InPair;
    var k := PatchesBefore(h, w, row / 2, x);
    assert PermUpTo(h, w, s + 1)[k] == row * w + col;
  }

  lemma PatchPlace(h: nat, w: nat, row: nat, col: nat)
    requires row < h && col < w
    ensures var s := PlaceOf(w, Slot(w, row, col));
      && s < Slots(h, w) && SlotPatch(h, w, OrderAt(w, s)) == row * w + col
      && Pair(w, s) == row / 2 && InPair(w, s) == 2 * col + row % 2
  {
    var t := Slot(w, row, col);
    SlotParts(w, row, col);
    SlotInside(h, w, row, col);
    PlaceInverts(w, t);
    OrderInside(h, w, t);
    Modular.DivModUnique(PlaceOf(w, t), 2 * RowLen(w), row / 2, 2 * col + row % 2);
  }

  lemma PatchCount(h: nat, w: nat, row: nat, col: nat)
    requires row < h && col < w
    ensures PatchesBefore(h, w, row / 2, 2 * col + row % 2) ==
      (row / 2) * (2 * w) + if h % 2 == 1 && row == h - 1 then col else 2 * col + row % 2
  {
  }

  lemma PatchNumberNat(row: nat, w: nat, col: nat)
    ensures row * w + col >= 0
  {
  }

  /** The block, token by token. */
  lemma BlockIs(h: nat, w: nat, startPos: nat)
    ensures IsBlock(h, w, startPos,
                    Repeat(Pad, PadTo - 1 - startPos % PadTo) + [Start] + Content(h, w) + Repeat(Pad, PadLast(h, w)) +
                      [End])
  {
    var pad, more := 3 - startPos % 4, PadLast(h, w);
    var head, content, tail := Repeat(Pad, pad) + [Start], Content(h, w), Repeat(Pad, more) + [End];
    var kinds := Repeat(Pad, pad) + [Start] + content + Repeat(Pad, more) + [End];
    assert kinds == head + content + tail;
    var rows := if h % 2 == 0 then h else h + 1;
    assert rows == Rows(h) && rows * (w + 1) == Slots(h, w);
    MoreTokens(h, w);
    hide Content, Slots, Rows, PadLast;
    var from := pad + 1;
    forall row: nat, col: nat | row < rows && col <= w ensures TokenAt(h, w, kinds, from, row, col) {
      ContentAt(h, w, row, col);
      var s := (row / 2) * (2 * (w + 1)) + 2 * col + row % 2;
      assert kinds[pad + 1 + s] == content[s];
    }
  }

  lemma MoreTokens(h: nat, w: nat)
    ensures PadLast(h, w) == if Slots(h, w) % 4 == 0 then 0 else 2
  {
    HalfSlots(h, w);
    var k := Rows(h) / 2 * RowLen(w);
    assert Slots(h, w) == 2 * k by { assert (Rows(h) / 2) * (2 * RowLen(w)) == 2 * k; }
    assert (2 * k) % 4 == 2 * (k % 2) by { assert k == 2 * (k / 2) + k % 2; }
  }

  /** Token kinds and patch order of one image block placed at `startPos`. */
  method BuildImageBlock(h: nat, w: nat, startPos: nat) returns (kinds: seq<Kind>, perm: seq<int>)
    ensures kinds ==
      Repeat(Pad, PadTo - 1 - startPos % PadTo) + [Start] + Content(h, w) + Repeat(Pad, PadLast(h, w)) + [End]
    ensures perm == Perm(h, w)
    ensures IsBlock(h, w, startPos, kinds) && IsPerm(h, w, perm)
  {
    hide OrderAt, SlotKind, SlotPatch, RowMajorKinds, Slots, IsBlock, IsPerm;
    var grid := RowMajorKinds(h, w);
    var filled := FillImageIndex(h, w);
    var index := filled[..];
    var content: seq<Kind> := [];
    perm := [];
    for s := 0 to Slots(h, w)
      invariant content == Content(h, w)[..s] && perm == PermUpTo(h, w, s)
    {
      OrderInside(h, w, s);
      var t := OrderAt(w, s);
      RowMajorAt(h, w, t);
      content := content + [grid[t]];
      PermNext(h, w, s);
      if index[t] >= 0 { perm := perm + [index[t]]; }
    }
    assert Content(h, w)[..Slots(h, w)] == Content(h, w);
    kinds := Repeat(Pad, PadTo - 1 - startPos % PadTo) + [Start] + content + Repeat(Pad, PadLast(h, w)) + [End];
    BlockIs(h, w, startPos);
    PermIs(h, w);
  }

  // ---------------------------------------------------------------------------
  // What the layout guarantees
  // ---------------------------------------------------------------------------

  /** The content starts at a multiple of four, has a length that is one, and the block has the promised size. */
  lemma BlockAligned(h: nat, w: nat, startPos: nat)
    ensures var pad := PadTo - 1 - startPos % PadTo;
      && 0 <= pad < PadTo
      && (startPos + pad + 1) % PadTo == 0
      && (Slots(h, w) + PadLast(h, w)) % PadTo == 0
      && |Repeat(Pad, pad) + [Start] + Content(h, w) + Repeat(Pad, PadLast(h, w)) + [End]| == pad + GridTokens(h, w)
  {
    var half, n := Rows(h) / 2, RowLen(w);
    assert Rows(h) == 2 * half;
    assert Slots(h, w) == 2 * (half * n) by { assert (2 * half) * n == 2 * (half * n); }
    assert (h + 1) / 2 == half;
    assert Slots(h, w) == h * (w + 1) + if h % 2 == 1 then w + 1 else 0 by {
      assert (h + 1) * (w + 1) == h * (w + 1) + (w + 1);
    }
    Even(half * n);
  }

  lemma Even(k: nat)
    ensures (2 * k + (k % 2) * 2) % 4 == 0
  {
    assert 2 * k + (k % 2) * 2 == 4 * (k / 2) + 4 * (k % 2);
  }

  lemma {:induction false} PatchTokenIndex(h: nat, w: nat, n: nat, s: nat)
    ensures s in PatchTokens(h, w, n) <==> s < n && SlotKind(h, w, OrderAt(w, s)) == Patch
  {
    if n > 0 { PatchTokenIndex(h, w, n - 1, s); }
  }

  lemma {:induction false} PatchTokensIncrease(h: nat, w: nat, n: nat)
    ensures forall a, b :: 0 <= a < b < |PatchTokens(h, w, n)| ==> PatchTokens(h, w, n)[a] < PatchTokens(h, w, n)[b]
  {
    if n > 0 { PatchTokensIncrease(h, w, n - 1); }
  }

  /** The k-th patch token, in order, is the reordered slot of patch perm[k]. */
  lemma KthPatchToken(h: nat, w: nat, k: nat)
    requires k < |Perm(h, w)|
    ensures k < |PatchTokens(h, w, Slots(h, w))|
    ensures var s, q := PatchTokens(h, w, Slots(h, w))[k], Perm(h, w)[k];
      && s < Slots(h, w) && Content(h, w)[s] == Patch
      && 0 <= q < h * w && w > 0
      && OrderAt(w, s) == Slot(w, q / w, q % w)
  {
    hide OrderAt, SlotKind, SlotPatch, Slots, Slot, PatchTokens, PermUpTo;
    PermAt(h, w, Slots(h, w));
    var idx := PatchTokens(h, w, Slots(h, w));
    assert idx[k] in idx;
    PatchTokenIndex(h, w, Slots(h, w), idx[k]);
    PatchIff(h, w, OrderAt(w, idx[k]));
    PatchSlot(h, w, OrderAt(w, idx[k]));
  }

  lemma PermDistinct(h: nat, w: nat, a: nat, b: nat)
    requires a < b < |Perm(h, w)|
    ensures Perm(h, w)[a] != Perm(h, w)[b]
  {
    PatchTokensIncrease(h, w, Slots(h, w));
    KthPatchToken(h, w, a);
    KthPatchToken(h, w, b);
    hide PatchTokens, Perm, OrderAt, SlotPatch, Slots, Slot, PlaceOf;
    OrderInverts(w, PatchTokens(h, w, Slots(h, w))[a]);
    OrderInverts(w, PatchTokens(h, w, Slots(h, w))[b]);
  }

  lemma PermCovers(h: nat, w: nat, q: nat)
    requires w > 0 && q < h * w
    ensures q in Perm(h, w)
  {
    hide OrderAt, SlotKind, SlotPatch, Slots, Slot, PlaceOf, PatchTokens;
    var idx := PatchTokens(h, w, Slots(h, w));
    var t := PatchHasSlot(h, w, q);
    var s := PlaceOf(w, t);
    PlaceInverts(w, t);
    OrderInside(h, w, t);
    PatchIff(h, w, t);
    PatchTokenIndex(h, w, Slots(h, w), s);
    var k :| 0 <= k < |idx| && idx[k] == s;
    hide PermUpTo;
    PermAt(h, w, Slots(h, w));
    assert Perm(h, w)[k] == q;
  }

  /** perm lists every patch exactly once. */
  lemma PermIsPermutation(h: nat, w: nat)
    ensures forall a, b :: 0 <= a < b < |Perm(h, w)| ==> Perm(h, w)[a] != Perm(h, w)[b]
    ensures forall q :: q in Perm(h, w) <==> 0 <= q < h * w
    ensures |Perm(h, w)| == h * w
  {
    hide Slots, Slot, OrderAt, PermUpTo, PatchTokens;
    var perm := Perm(h, w);
    forall a, b | 0 <= a < b < |perm| ensures perm[a] != perm[b] { PermDistinct(h, w, a, b); }
    forall q ensures q in perm <==> 0 <= q < h * w {
      if q in perm {
        var k :| 0 <= k < |perm| && perm[k] == q;
        KthPatchToken(h, w, k);
      }
      NoPatches(h, w);
      if 0 <= q < h * w { PermCovers(h, w, q); }
    }
    hide Perm;
    CountDistinct(perm, h * w);
  }

  lemma NoPatches(h: nat, w: nat)
    ensures h * w > 0 ==> w > 0
    ensures h * w >= 0
  {
  }

  /** A list without repetition of exactly the numbers below n has n entries. */
  lemma {:induction false} CountDistinct(s: seq<int>, n: nat)
    requires forall a, b :: 0 <= a < b < |s| ==> s[a] != s[b]
    requires forall q :: q in s <==> 0 <= q < n
    ensures |s| == n
  {
    assert s != [] ==> s[0] in s;
    if n > 0 {
      assert n - 1 in s;
      var k :| 0 <= k < |s| && s[k] == n - 1;
      var rest := s[..k] + s[k + 1..];
      assert forall q :: q in rest <==> q in s && q != n - 1;
      CountDistinct(rest, n - 1);
    }
  }
}
