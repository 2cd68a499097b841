/**
 * Putting the rank slices of a tensor, or of its scale grid, back together.
 *
 * One segment is a concatenation; several segments are scattered by a loop with a
 * running position per rank. Both are proved to invert the slicing of `TpShard`,
 * and for scale grids the exact condition under which they do is stated.
 */
module TpReassembly {
  import opened Prelude
  import opened TpShard
  import Modular

  /** The same stretch of the first k parts, one after the other. */
  function Gather<T>(parts: seq<seq<T>>, k: nat, at: nat, per: nat): seq<T>
    requires k <= |parts|
  {
    if k == 0 then [] else Gather(parts, k - 1, at, per) + Slice(parts[k - 1], at, at + per)
  }

  /** Segment by segment, every rank's stretch of it. */
  function FromRanks<T>(parts: seq<seq<T>>, pers: seq<nat>, at: nat): seq<T>
  {
    if pers == [] then [] else Gather(parts, |parts|, at, pers[0]) + FromRanks(parts, pers[1..], at + pers[0])
  }

  /** From `at` on, rank r's part is what the ranges cut from the axis. */
  ghost predicate PartIs<T>(arr: seq<T>, part: seq<T>, tp: nat, pers: seq<nat>, base: nat, at: nat, r: nat) {
    at <= |part| && part[at..] == Cut(arr, RowRanges(tp, pers, r, base))
  }

  ghost predicate AreCuts<T>(arr: seq<T>, parts: seq<seq<T>>, pers: seq<nat>, base: nat, at: nat) {
    forall r :: 0 <= r < |parts| ==> PartIs(arr, parts[r], |parts|, pers, base, at, r)
  }

  lemma {:induction false} PartStep<T>(arr: seq<T>, part: seq<T>, tp: nat, pers: seq<nat>, base: nat, at: nat, r: nat)
    requires pers != [] && r < tp && PartIs(arr, part, tp, pers, base, at, r) && base + Times(tp, pers[0]) <= |arr|
    ensures var per := pers[0];
      && base + Times(r, per) <= base + Times(r + 1, per) <= |arr|
      && Slice(part, at, at + per) == arr[base + Times(r, per)..base + Times(r + 1, per)]
      && PartIs(arr, part, tp, pers[1..], base + Times(tp, per), at + per, r)
  {
    hide Times, Cut, Slice, RowRanges;
    var per := pers[0];
    var lo, hi := base + Times(r, per), base + Times(r + 1, per);
    TimesNext(r, per);
    TimesMonotone(r + 1, tp, per);
    CutRanges(arr, tp, pers, base, r);
    SliceInside(arr, lo, hi);
    var head, rest := arr[lo..hi], Cut(arr, RowRanges(tp, pers[1..], r, base + Times(tp, per)));
    assert |head| == per;
    TakeHead(part, at, per, head, rest);
  }

  lemma {:induction false} CutRanges<T>(arr: seq<T>, tp: nat, pers: seq<nat>, base: nat, r: nat)
    requires pers != []
    ensures Cut(arr, RowRanges(tp, pers, r, base))
         == Slice(arr, base + Times(r, pers[0]), base + Times(r + 1, pers[0])) +
           Cut(arr, RowRanges(tp, pers[1..], r, base + Times(tp, pers[0])))
  {
    CutHead(arr, RowRanges(tp, pers, r, base));
  }

  lemma TakeHead<T>(part: seq<T>, at: nat, per: nat, head: seq<T>, rest: seq<T>)
    requires at <= |part| && part[at..] == head + rest && |head| == per
    ensures Slice(part, at, at + per) == head
    ensures at + per <= |part| && part[at + per..] == rest
  {
    assert |part| - at == |head| + |rest|;
    SliceInside(part, at, at + per);
    assert part[at..at + per] == part[at..][..per];
    assert part[at + per..] == part[at..][per..];
  }

  lemma {:induction false} GatherIsRun<T>(arr: seq<T>, parts: seq<seq<T>>, pers: seq<nat>, base: nat, at: nat, k: nat)
    requires pers != [] && k <= |parts| && AreCuts(arr, parts, pers, base, at) &&
      base + Times(|parts|, pers[0]) <= |arr|
    ensures base + Times(k, pers[0]) <= |arr| && Gather(parts, k, at, pers[0]) == arr[base..base + Times(k, pers[0])]
  {
    hide Times, Slice, PartIs;
    if k == 0 {
      TimesZero(pers[0]);
    } else {
      var j := k - 1;
      GatherIsRun(arr, parts, pers, base, at, j);
      assert PartIs(arr, parts[j], |parts|, pers, base, at, j);
      PartStep(arr, parts[j], |parts|, pers, base, at, j);
      assert j + 1 == k;
      Joined(arr, base, base + Times(j, pers[0]), base + Times(k, pers[0]));
    }
  }

  lemma Joined<T>(arr: seq<T>, a: nat, b: nat, c: nat)
    requires a <= b <= c <= |arr|
    ensures arr[a..b] + arr[b..c] == arr[a..c]
  {
  }

  lemma {:induction false} CutsRest<T>(arr: seq<T>, parts: seq<seq<T>>, pers: seq<nat>, base: nat, at: nat)
    requires pers != [] && AreCuts(arr, parts, pers, base, at) && base + Times(|parts|, pers[0]) <= |arr|
    ensures AreCuts(arr, parts, pers[1..], base + Times(|parts|, pers[0]), at + pers[0])
  {
    hide PartIs, Times, Slice;
    forall r | 0 <= r < |parts|
      ensures PartIs(arr, parts[r], |parts|, pers[1..], base + Times(|parts|, pers[0]), at + pers[0], r) {
      assert PartIs(arr, parts[r], |parts|, pers, base, at, r);
      PartStep(arr, parts[r], |parts|, pers, base, at, r);
    }
  }

  /** Scattering every rank's stretch of every segment rebuilds the axis. */
  lemma {:induction false} FromRanksInverts<T>(arr: seq<T>, parts: seq<seq<T>>, pers: seq<nat>, base: nat, at: nat)
    requires base + Span(|parts|, pers) == |arr| && AreCuts(arr, parts, pers, base, at)
    ensures FromRanks(parts, pers, at) == arr[base..]
    decreases |pers|
  {
    hide AreCuts, Times, Gather;
    if pers != [] {
      CutsRest(arr, parts, pers, base, at);
      FromRanksInverts(arr, parts, pers[1..], base + Times(|parts|, pers[0]), at + pers[0]);
      GatherIsRun(arr, parts, pers, base, at, |parts|);
      TailJoined(arr, base, base + Times(|parts|, pers[0]));
    }
  }

  lemma TailJoined<T>(arr: seq<T>, a: nat, b: nat)
    requires a <= b <= |arr|
    ensures arr[a..b] + arr[b..] == arr[a..]
  {
  }

  // ---------------------------------------------------------------------------
  // Tensors
  // ---------------------------------------------------------------------------

  function Concat<T>(parts: seq<seq<T>>): seq<T> {
    if parts == [] then [] else Concat(parts[..|parts| - 1]) + parts[|parts| - 1]
  }

  function SumCols<T>(shards: seq<Tensor<T>>): nat {
    if shards == [] then 0 else SumCols(shards[..|shards| - 1]) + shards[|shards| - 1].cols
  }

  function RowsOf<T>(shards: seq<Tensor<T>>): (rows: seq<seq<seq<T>>>)
    ensures |rows| == |shards|
  {
    seq(|shards|, r requires 0 <= r < |shards| => shards[r].rows)
  }

  ghost predicate SameHeight<T>(shards: seq<Tensor<T>>) {
    forall r :: 0 <= r < |shards| ==> |shards[r].rows| == |shards[0].rows|
  }

  /** Row i of every shard. */
  function Pieces<T>(shards: seq<Tensor<T>>, i: nat): (pieces: seq<seq<T>>)
    requires SameHeight(shards) && |shards| > 0 && i < |shards[0].rows|
    ensures |pieces| == |shards|
  {
    seq(|shards|, r requires 0 <= r < |shards| => shards[r].rows[i])
  }

  function ConcatCols<T>(shards: seq<Tensor<T>>): Tensor<T>
    requires SameHeight(shards) && |shards| > 0
  {
    Tensor(seq(|shards[0].rows|, i requires 0 <= i < |shards[0].rows| => Concat(Pieces(shards, i))), SumCols(shards))
  }

  function ConcatRows<T>(shards: seq<Tensor<T>>): Tensor<T>
    requires |shards| > 0
  {
    Tensor(Concat(RowsOf(shards)), shards[0].cols)
  }

  function InBlocks(ns: seq<nat>, block: nat): (out: seq<nat>)
    requires block > 0
    ensures |out| == |ns|
  {
    seq(|ns|, i requires 0 <= i < |ns| => ns[i] / block)
  }

  function Sum(ns: seq<nat>): nat {
    if ns == [] then 0 else ns[0] + Sum(ns[1..])
  }

  /** The reassembled tensor: in units of one row for weights, of `block` rows for scales. */
  function Full<T>(tp: nat, p: Plan, shards: seq<Tensor<T>>, block: nat): Result<Tensor<T>, ShardError>
    requires tp > 0 && block > 0 && PlanOk(p) && |shards| == tp
    requires p.kind.SplitIn? ==> SameHeight(shards)
    requires p.kind.SplitOut? && |p.segments| > 1 ==> Splits(tp, p.segments)
  {
    match p.kind
    case Replicated => Ok(shards[0])
    case ByExpert => Err(ExpertReassembly)
    case SplitIn => Ok(ConcatCols(shards))
    case SplitOut =>
      if |p.segments| == 1 then Ok(ConcatRows(shards))
      else if Total(p.segments) % block != 0 then Err(SegmentsNotAligned)
      else Ok(Tensor(FromRanks(RowsOf(shards), InBlocks(Pers(tp, p.segments), block), 0), shards[0].cols))
  }

  /** Parts of equal length: concatenating them is gathering them whole. */
  lemma {:induction false} ConcatIsGather<T>(parts: seq<seq<T>>, all: seq<seq<T>>, per: nat)
    requires |parts| <= |all| && parts == all[..|parts|] && forall r :: 0 <= r < |parts| ==> |parts[r]| == per
    ensures Concat(parts) == Gather(all, |parts|, 0, per)
    decreases |parts|
  {
    if parts != [] {
      hide Slice;
      var k := |parts| - 1;
      assert parts[..k] == all[..k];
      ConcatIsGather(parts[..k], all, per);
      SliceInside(all[k], 0, per);
      assert all[k][0..per] == parts[k];
    }
  }

  /** One segment: the concatenated cuts are the axis. */
  lemma ConcatInverts<T>(arr: seq<T>, parts: seq<seq<T>>, per: nat)
    requires |parts| > 0 && |arr| == Times(|parts|, per)
    requires forall r :: 0 <= r < |parts| ==> parts[r] == Cut(arr, RowRanges(|parts|, [per], r, 0))
    ensures forall r :: 0 <= r < |parts| ==> |parts[r]| == per
    ensures Concat(parts) == arr
  {
    var tp := |parts|;
    hide Times, Cut, RowRanges;
    forall r | 0 <= r < tp ensures |parts[r]| == per && PartIs(arr, parts[r], tp, [per], 0, 0, r) {
      OneRange(arr, tp, per, r);
      assert parts[r][0..] == parts[r];
    }
    hide PartIs;
    ConcatIsGather(parts, parts, per);
    GatherIsRun(arr, parts, [per], 0, 0, tp);
    assert arr[0..|arr|] == arr;
  }

  lemma OneRange<T>(arr: seq<T>, tp: nat, per: nat, r: nat)
    requires r < tp && |arr| == Times(tp, per)
    ensures |Cut(arr, RowRanges(tp, [per], r, 0))| == per
  {
    TimesNext(r, per);
    TimesMonotone(r + 1, tp, per);
    CutRanges(arr, tp, [per], 0, r);
    SliceInside(arr, Times(r, per), Times(r + 1, per));
    assert RowRanges(tp, [per][1..], r, Times(tp, per)) == [];
  }

  function Values<T>(shards: seq<Option<T>>): (out: seq<T>)
    requires forall r :: 0 <= r < |shards| ==> shards[r].Some?
    ensures |out| == |shards|
  {
    seq(|shards|, r requires 0 <= r < |shards| => shards[r].value)
  }

  /** The shards cut by the ranges of segments with the given rows per rank. */
  function Shards<T>(tp: nat, kind: Kind, pers: seq<nat>, t: Tensor<T>): (out: seq<Tensor<T>>)
    ensures |out| == tp
  {
    seq(tp, r requires 0 <= r => CutTensor(kind, t, RowRanges(tp, pers, r, 0)))
  }

  lemma ShardsAre<T>(tp: nat, experts: nat, p: Plan, t: Tensor<T>)
    requires tp > 0 && PlanOk(p) && (p.kind.SplitOut? || p.kind.SplitIn?)
    requires Shard(tp, experts, p, t).Ok?
    ensures var segs := Known(p, |t.rows|);
      && Splits(tp, segs) && |segs| == |p.segments| && Total(segs) == (if p.kind.SplitOut? then |t.rows| else t.cols)
      && (|segs| > 1 ==> segs == p.segments)
    ensures forall r :: 0 <= r < tp ==> Shard(tp, experts, p, t).value[r].Some?
    ensures |Shard(tp, experts, p, t).value| == tp
    ensures Values(Shard(tp, experts, p, t).value) == Shards(tp, p.kind, Pers(tp, Known(p, |t.rows|)), t)
  {
    hide CutTensor, RowRanges, Pers;
    var segs := Known(p, |t.rows|);
    NoErrorSplits(tp, segs);
    assert segs[1..] == p.segments[1..];
    if |segs| == 1 { assert segs[1..] == []; }
  }

  lemma {:induction false} OneSegment(tp: nat, segs: seq<Segment>)
    requires Splits(tp, segs) && |segs| == 1
    ensures Pers(tp, segs) == [Per(tp, segs[0])] && Times(tp, Per(tp, segs[0])) == Total(segs)
  {
    TimesAll(tp, segs[0].size.value);
    assert segs[1..] == [];
  }

  /** Reassembly inverts sharding, for one segment or several, for rows or columns. */
  lemma {:induction false} FullInvertsShard<T>(tp: nat, experts: nat, p: Plan, t: Tensor<T>)
    requires tp > 0 && PlanOk(p) && !p.kind.ByExpert? && t.Valid() && Shard(tp, experts, p, t).Ok?
    ensures forall r :: 0 <= r < tp ==> Shard(tp, experts, p, t).value[r].Some?
    ensures |Shard(tp, experts, p, t).value| == tp
    ensures var shards := Values(Shard(tp, experts, p, t).value);
      && (p.kind.SplitIn? ==> SameHeight(shards))
      && (p.kind.SplitOut? && |p.segments| > 1 ==> Splits(tp, p.segments))
      && Full(tp, p, shards, 1) == Ok(t)
  {
    if p.kind.SplitOut? || p.kind.SplitIn? {
      ShardsAre(tp, experts, p, t);
      hide Shard;
      var segs := Known(p, |t.rows|);
      var pers := Pers(tp, segs);
      SpanIsTotal(tp, segs);
      if p.kind.SplitIn? {
        OneSegment(tp, segs);
        ColsInvert(tp, p.kind, t, pers[0]);
      } else if |segs| == 1 {
        OneSegment(tp, segs);
        RowsInvert(tp, p.kind, t, pers[0]);
      } else {
        SegmentsInvert(tp, p.kind, t, pers);
        assert InBlocks(pers, 1) == pers;
      }
    }
  }

  lemma {:induction false} ColsInvert<T>(tp: nat, kind: Kind, t: Tensor<T>, per: nat)
    requires t.Valid() && kind.SplitIn? && tp > 0 && Times(tp, per) == t.cols
    ensures SameHeight(Shards(tp, kind, [per], t)) && ConcatCols(Shards(tp, kind, [per], t)) == t
  {
    var shards := Shards(tp, kind, [per], t);
    hide Cut, Times, RowRanges, Length;
    forall i | 0 <= i < |t.rows| ensures Concat(Pieces(shards, i)) == t.rows[i] {
      ConcatInverts(t.rows[i], Pieces(shards, i), per);
    }
    forall r | 0 <= r < tp ensures shards[r].cols == per {
      assert shards[r].cols == Length(RowRanges(tp, [per], r, 0));
      OneLength(tp, per, r);
    }
    SumOfEqual(shards, per);
    assert ConcatCols(shards).rows == t.rows;
  }

  lemma OneLength(tp: nat, per: nat, r: nat)
    ensures Length(RowRanges(tp, [per], r, 0)) == per
  {
    TimesNext(r, per);
    var rr := RowRanges(tp, [per], r, 0);
    assert [per][1..] == [];
    assert rr[1..] == [];
  }

  lemma {:induction false} SumOfEqual<T>(shards: seq<Tensor<T>>, per: nat)
    requires forall r :: 0 <= r < |shards| ==> shards[r].cols == per
    ensures SumCols(shards) == Times(|shards|, per)
    decreases |shards|
  {
    if shards == [] {
      TimesZero(per);
    } else {
      SumOfEqual(shards[..|shards| - 1], per);
      TimesNext(|shards| - 1, per);
    }
  }

  lemma {:induction false} RowsInvert<T>(tp: nat, kind: Kind, t: Tensor<T>, per: nat)
    requires kind.SplitOut? && tp > 0 && Times(tp, per) == |t.rows|
    ensures ConcatRows(Shards(tp, kind, [per], t)) == t
  {
    var shards := Shards(tp, kind, [per], t);
    hide Cut, Times, RowRanges;
    assert shards[0].cols == t.cols;
    ConcatInverts(t.rows, RowsOf(shards), per);
  }

  lemma {:induction false} SegmentsInvert<T>(tp: nat, kind: Kind, t: Tensor<T>, pers: seq<nat>)
    requires kind.SplitOut? && tp > 0 && Span(tp, pers) == |t.rows|
    ensures var shards := Shards(tp, kind, pers, t);
      shards[0].cols == t.cols && FromRanks(RowsOf(shards), pers, 0) == t.rows
  {
    var shards := Shards(tp, kind, pers, t);
    hide Cut, Times, RowRanges, Span, FromRanks;
    var parts := RowsOf(shards);
    forall r | 0 <= r < tp ensures PartIs(t.rows, parts[r], tp, pers, 0, 0, r) {
      assert parts[r][0..] == parts[r];
    }
    hide PartIs;
    FromRanksInverts(t.rows, parts, pers, 0, 0);
    assert t.rows[0..] == t.rows;
  }

  /** Dequantized rank by rank and put back together, a split tensor is the dequantized tensor. */
  lemma {:induction false} DequantsReassemble(tp: nat, block: nat, experts: nat, p: Plan, decode: int -> real,
                                              w: Tensor<int>, s: Tensor<real>, mine: seq<Tensor<real>>)
    requires tp > 0 && block > 0 && PlanOk(p) && !p.kind.ByExpert? && w.Valid() && s.Valid() && GridFits(w, s, block)
    requires SizesUsable(tp, block, p, w) && |mine| == tp
    requires forall r :: 0 <= r < tp ==> RankDequant(tp, block, experts, p, decode, w, s, r) == Ok(mine[r])
    ensures Dequant(decode, w, s, block, block).Ok?
    ensures (p.kind.SplitIn? ==> SameHeight(mine)) && (p.kind.SplitOut? && |p.segments| > 1 ==> Splits(tp, p.segments))
    ensures Full(tp, p, mine, 1) == Ok(Dequant(decode, w, s, block, block).value)
  {
    hide Dequant, ValidateTensor, RankRanges, RankRowRanges, CutTensor, CeilDiv, RankDequant, Full, SizesUsable;
    RankDequantIsSlice(tp, block, experts, p, decode, w, s, 0);
    DequantByRow(decode, w, s, block, block);
    var full := Dequant(decode, w, s, block, block).value;
    forall r | 0 <= r < tp ensures Ok(mine[r]) == PlanSlice(tp, experts, p, full, r) {
      RankDequantIsSlice(tp, block, experts, p, decode, w, s, r);
    }
    assert PlanSlice(tp, experts, p, full, 0).Ok?;
    FullInvertsShard(tp, experts, p, full);
    assert mine == Values(Shard(tp, experts, p, full).value);
  }

  // ---------------------------------------------------------------------------
  // Scale grids
  // ---------------------------------------------------------------------------

  /** Aligned ranges, in blocks, are the ranges of the segments counted in blocks. */
  lemma {:induction false} AlignedRanges(tp: nat, pers: seq<nat>, r: nat, base: nat, block: nat)
    requires block > 0 && AllAligned(pers, block) && base % block == 0
    ensures BlockRanges(RowRanges(tp, pers, r, base), block) == RowRanges(tp, InBlocks(pers, block), r, base / block)
    decreases |pers|
  {
    if pers != [] {
      var per, next := pers[0], base + Times(tp, pers[0]);
      hide Times, CeilDiv, BlockRanges;
      TimesAligned(tp, per, block);
      TimesAligned(r, per, block);
      TimesAligned(r + 1, per, block);
      SumAligned(base, Times(tp, per), block);
      SumAligned(base, Times(r, per), block);
      SumAligned(base, Times(r + 1, per), block);
      AlignedCeil(base + Times(r + 1, per), block);
      AlignedRanges(tp, pers[1..], r, next, block);
      var rr := RowRanges(tp, pers, r, base);
      BlockRangesHead(rr, block);
      assert InBlocks(pers, block)[1..] == InBlocks(pers[1..], block);
      var br := BlockRanges(rr, block);
      assert br == [br[0]] + br[1..];
    }
  }

  lemma {:induction false} SpanInBlocks(tp: nat, pers: seq<nat>, block: nat)
    requires block > 0 && AllAligned(pers, block)
    ensures Span(tp, pers) % block == 0 && Span(tp, InBlocks(pers, block)) == Span(tp, pers) / block
    decreases |pers|
  {
    if pers != [] {
      SpanInBlocks(tp, pers[1..], block);
      TimesAligned(tp, pers[0], block);
      SumAligned(Times(tp, pers[0]), Span(tp, pers[1..]), block);
      hide Times;
      assert InBlocks(pers, block)[1..] == InBlocks(pers[1..], block);
    }
  }

  lemma ScalesAre(tp: nat, block: nat, p: Plan, s: Tensor<real>)
    requires tp > 0 && block > 0 && PlanOk(p) && (p.kind.SplitOut? || p.kind.SplitIn?) &&
      ShardScale(tp, block, p, s).Ok?
    ensures Splits(tp, p.segments)
    ensures |p.segments| > 1 ==> AllAligned(Pers(tp, p.segments), block)
    ensures ShardScale(tp, block, p, s).value ==
      seq(tp, r requires 0 <= r => CutTensor(p.kind, s, BlockRanges(RowRanges(tp, Pers(tp, p.segments), r, 0), block)))
  {
    hide CutTensor, RowRanges, BlockRanges;
    NoErrorSplits(tp, p.segments);
  }

  /** Reassembling aligned scale slices gives the grid back. */
  lemma {:induction false} FullInvertsScale(tp: nat, block: nat, p: Plan, s: Tensor<real>)
    requires tp > 0 && block > 0 && PlanOk(p) && (p.kind.SplitOut? || p.kind.SplitIn?) && s.Valid()
    requires ShardScale(tp, block, p, s).Ok? && Splits(tp, p.segments) && AllAligned(Pers(tp, p.segments), block)
    requires (if p.kind.SplitOut? then |s.rows| else s.cols) == CeilDiv(Total(p.segments), block)
    ensures |ShardScale(tp, block, p, s).value| == tp
    ensures p.kind.SplitIn? ==> SameHeight(ShardScale(tp, block, p, s).value)
    ensures Full(tp, p, ShardScale(tp, block, p, s).value, block) == Ok(s)
  {
    ScalesAre(tp, block, p, s);
    var pers := Pers(tp, p.segments);
    var inBlocks := InBlocks(pers, block);
    forall r: nat ensures BlockRanges(RowRanges(tp, pers, r, 0), block) == RowRanges(tp, inBlocks, r, 0) {
      AlignedRanges(tp, pers, r, 0, block);
    }
    hide ShardScale, RowRanges, BlockRanges;
    assert ShardScale(tp, block, p, s).value == Shards(tp, p.kind, inBlocks, s);
    SpanIsTotal(tp, p.segments);
    SpanInBlocks(tp, pers, block);
    AlignedCeil(Total(p.segments), block);
    hide CutTensor, Times, CeilDiv;
    if |p.segments| == 1 {
      assert inBlocks == [inBlocks[0]] &&
        Span(tp, inBlocks) == Times(tp, inBlocks[0]) by { assert inBlocks[1..] == []; }
      if p.kind.SplitIn? {
        ColsInvert(tp, p.kind, s, inBlocks[0]);
      } else {
        RowsInvert(tp, p.kind, s, inBlocks[0]);
      }
    } else {
      SegmentsInvert(tp, p.kind, s, inBlocks);
    }
  }

  /** Scale rows or columns that the first k ranks hold, for one segment. */
  function HeldBlocks(k: nat, per: nat, block: nat): int
    requires block > 0
  {
    if k == 0 then 0
    else HeldBlocks(k - 1, per, block) + CeilDiv(Times(k, per), block) - Block(Times(k - 1, per), block)
  }

  /** A boundary inside a block gives that block to both neighbours. */
  lemma {:induction false} SharedBlocks(k: nat, per: nat, block: nat)
    requires block > 0
    ensures HeldBlocks(k, per, block) >= CeilDiv(Times(k, per), block)
    ensures k >= 2 && per % block != 0 ==> HeldBlocks(k, per, block) > CeilDiv(Times(k, per), block)
  {
    if k == 0 {
      TimesZero(per);
      Modular.DivModUnique(block - 1, block, 0, block - 1);
    } else {
      SharedBlocks(k - 1, per, block);
      CeilAbove(Times(k - 1, per), block);
      if k == 2 { assert Times(1, per) == per; }
    }
  }

  lemma CeilAbove(n: nat, block: nat)
    requires block > 0
    ensures CeilDiv(n, block) >= Block(n, block)
    ensures n % block != 0 ==> CeilDiv(n, block) > Block(n, block)
  {
    Modular.DivMonotone(n, n + block - 1, block);
    if n % block != 0 {
      Modular.AddMultiple(n, 1, block);
      Modular.DivMonotone(n, n + block - 1, block);
      assert n == (n / block) * block + n % block;
      Modular.DivModUnique(n + block - 1, block, n / block + 1, n % block - 1) by {
        assert (n / block + 1) * block == (n / block) * block + block;
      }
    }
  }

  lemma OneScaleLength(tp: nat, per: nat, r: nat, block: nat)
    requires block > 0
    ensures Length(BlockRanges(RowRanges(tp, [per], r, 0), block)) ==
      HeldBlocks(r + 1, per, block) - HeldBlocks(r, per, block)
  {
    var rr := RowRanges(tp, [per], r, 0);
    assert [per][1..] == [];
    BlockRangesHead(rr, block);
    TimesNext(r, per);
    Modular.DivMonotone(Times(r, per), Times(r + 1, per) + block - 1, block);
    assert BlockRanges(rr, block)[1..] == [];
    hide BlockRanges;
  }

  lemma {:induction false} HeldRows<T>(parts: seq<seq<T>>, tp: nat, per: nat, block: nat)
    requires block > 0 && |parts| <= tp
    requires forall r :: 0 <= r < |parts| ==> |parts[r]| == HeldBlocks(r + 1, per, block) - HeldBlocks(r, per, block)
    ensures |Concat(parts)| == HeldBlocks(|parts|, per, block)
    decreases |parts|
  {
    hide HeldBlocks;
    if parts != [] {
      var k := |parts| - 1;
      HeldRows(parts[..k], tp, per, block);
      assert k + 1 == |parts|;
    } else {
      NoneHeld(per, block);
    }
  }

  lemma {:induction false} HeldCols<T>(shards: seq<Tensor<T>>, tp: nat, per: nat, block: nat)
    requires block > 0 && |shards| <= tp
    requires forall r :: 0 <= r < |shards| ==>
      shards[r].cols == HeldBlocks(r + 1, per, block) - HeldBlocks(r, per, block)
    ensures SumCols(shards) == HeldBlocks(|shards|, per, block)
    decreases |shards|
  {
    hide HeldBlocks;
    if shards != [] {
      var k := |shards| - 1;
      HeldCols(shards[..k], tp, per, block);
      assert k + 1 == |shards|;
    } else {
      NoneHeld(per, block);
    }
  }

  lemma NoneHeld(per: nat, block: nat)
    requires block > 0
    ensures HeldBlocks(0, per, block) == 0
  {
  }

  /** The axis length of the reassembled grid: one block too many for every boundary inside a block. */
  lemma {:induction false} ScaleLength(tp: nat, block: nat, kind: Kind, s: Tensor<real>, per: nat)
    requires tp > 0 && block > 0 && s.Valid() && (kind.SplitOut? || kind.SplitIn?)
    requires (if kind.SplitOut? then |s.rows| else s.cols) == CeilDiv(Times(tp, per), block)
    ensures var shards :=
      seq(tp, r requires 0 <= r => CutTensor(kind, s, BlockRanges(RowRanges(tp, [per], r, 0), block)));
      && (kind.SplitOut? ==> |ConcatRows(shards).rows| == HeldBlocks(tp, per, block))
      && (kind.SplitIn? ==> SameHeight(shards) && ConcatCols(shards).cols == HeldBlocks(tp, per, block))
  {
    var shards := seq(tp, r requires 0 <= r => CutTensor(kind, s, BlockRanges(RowRanges(tp, [per], r, 0), block)));
    hide Cut, Length, BlockRanges, RowRanges, Times, CeilDiv, HeldBlocks;
    forall r | 0 <= r < tp
      ensures kind.SplitOut? ==> |shards[r].rows| == HeldBlocks(r + 1, per, block) - HeldBlocks(r, per, block)
      ensures kind.SplitIn? ==> shards[r].cols == HeldBlocks(r + 1, per, block) - HeldBlocks(r, per, block)
    {
      OneScaleLength(tp, per, r, block);
      var rr := RowRanges(tp, [per], r, 0);
      if kind.SplitOut? {
        RowRangesWithin(tp, [per], r, 0);
        OneSpan(tp, per);
        BlocksWithin(rr, Times(tp, per), block);
        CutAt(s.rows, BlockRanges(rr, block));
      }
    }
    if kind.SplitOut? {
      HeldRows(RowsOf(shards), tp, per, block);
    } else {
      HeldCols(shards, tp, per, block);
    }
  }

  lemma OneSpan(tp: nat, per: nat)
    ensures Span(tp, [per]) == Times(tp, per)
  {
    assert [per][1..] == [];
  }

  /** Scale slices of an accepted plan reassemble to the grid exactly when every rank's share is whole blocks. */
  lemma {:induction false} FullInvertsScaleExactly(tp: nat, block: nat, p: Plan, s: Tensor<real>)
    requires tp > 1 && block > 0 && PlanOk(p) && (p.kind.SplitOut? || p.kind.SplitIn?) && s.Valid()
    requires ShardScale(tp, block, p, s).Ok?
    requires (if p.kind.SplitOut? then |s.rows| else s.cols) == CeilDiv(Total(p.segments), block)
    ensures Splits(tp, p.segments) && |ShardScale(tp, block, p, s).value| == tp
    ensures p.kind.SplitIn? ==> SameHeight(ShardScale(tp, block, p, s).value)
    ensures Full(tp, p, ShardScale(tp, block, p, s).value, block) == Ok(s) <==> AllAligned(Pers(tp, p.segments), block)
  {
    ScalesAre(tp, block, p, s);
    hide CutTensor, RowRanges, BlockRanges, CeilDiv, ShardScale, Shards;
    if AllAligned(Pers(tp, p.segments), block) {
      FullInvertsScale(tp, block, p, s);
    } else {
      OneSegment(tp, p.segments);
      ScaleLength(tp, block, p.kind, s, Per(tp, p.segments[0]));
      SharedBlocks(tp, Per(tp, p.segments[0]), block);
    }
  }

  /** Half of a 128-row block per rank: validation accepts it, and the one row of scales comes back twice. */
  lemma ShareInsideBlock(row: seq<real>)
    ensures var p := Plan(SplitOut, [Segment(Some(128), 1)], 0); var s := Tensor([row], |row|);
      && ValidateTensor(2, 128, p, 128, |row|, true).None? && ShardScale(2, 128, p, s) == Ok([s, s])
      && Full(2, p, [s, s], 128) == Ok(Tensor([row, row], |row|)) && Tensor([row, row], |row|) != s
  {
    var p, s := Plan(SplitOut, [Segment(Some(128), 1)], 0), Tensor([row], |row|);
    hide ValidateTensor, ShardScale;
    HalfAccepted(p, |row|);
    HalfScale(p, s);
    TwoRows(s, row);
    hide ConcatRows;
  }

  lemma HalfAccepted(p: Plan, cols: nat)
    requires p == Plan(SplitOut, [Segment(Some(128), 1)], 0)
    ensures ValidateTensor(2, 128, p, 128, cols, true).None?
  {
    HalfRanges();
    assert Total(p.segments) == 128 by { assert p.segments[1..] == []; }
    hide RankRowRanges;
    RanksErrorIff([[(0, 64)], [(64, 128)]], 128);
    hide RanksError;
  }

  lemma HalfScale(p: Plan, s: Tensor<real>)
    requires p == Plan(SplitOut, [Segment(Some(128), 1)], 0) && |s.rows| == 1
    ensures ShardScale(2, 128, p, s) == Ok([s, s])
  {
    HalfRanges();
    CutOneRow(s);
    hide RankRowRanges, CutTensor;
    assert BlockRanges([(0, 64)], 128) == [(0, 1)] by { assert [(0 as nat, 64 as nat)][1..] == []; }
    assert BlockRanges([(64, 128)], 128) == [(0, 1)] by { assert [(64 as nat, 128 as nat)][1..] == []; }
    hide BlockRanges;
    assert ShardScale(2, 128, p, s).value == [s, s];
  }

  lemma HalfRanges()
    ensures RankRowRanges(2, [Segment(Some(128), 1)]) == Ok([[(0, 64)], [(64, 128)]])
  {
    var segs := [Segment(Some(128), 1)];
    assert segs[1..] == [];
    assert SegmentsError(2, segs).None?;
    NoErrorSplits(2, segs);
    assert Pers(2, segs) == [64];
    assert [64][1..] == [];
    assert RowRanges(2, [64], 0, 0) == [(0, 64)] && RowRanges(2, [64], 1, 0) == [(64, 128)];
    assert RankRowRanges(2, segs).Ok?;
    hide RowRanges, SegmentsError;
    assert RankRowRanges(2, segs).value == [[(0, 64)], [(64, 128)]];
  }

  lemma CutOneRow(s: Tensor<real>)
    requires |s.rows| == 1
    ensures CutTensor(SplitOut, s, [(0, 1)]) == s
  {
    assert [(0 as nat, 1 as nat)][1..] == [];
    assert Cut(s.rows, [(0, 1)]) == s.rows;
  }

  lemma TwoRows(s: Tensor<real>, row: seq<real>)
    requires s.rows == [row]
    ensures ConcatRows([s, s]).rows == [row, row] && ConcatRows([s, s]).cols == s.cols
  {
    var parts := RowsOf([s, s]);
    assert parts == [[row], [row]];
    assert parts[..1] == [[row]] && parts[..1][..0] == [];
    assert Concat(parts[..1]) == [row];
    assert Concat(parts) == [row, row];
  }

  // ---------------------------------------------------------------------------
  // The scatter loop
  // ---------------------------------------------------------------------------

  /** Assign a slice. */
  method Paste<T>(buf: array<T>, at: nat, piece: seq<T>)
    requires at + |piece| <= buf.Length
    modifies buf
    ensures buf[..at + |piece|] == old(buf[..at]) + piece
  {
    forall i | 0 <= i < |piece| { buf[at + i] := piece[i]; }
  }

  predicate Multiple(n: nat, block: nat)
    requires block > 0
  {
    n % block == 0
  }

  /** Rank r's slot of a segment, in blocks. */
  lemma RankSlot(tp: nat, base: nat, per: nat, r: nat, block: nat)
    requires block > 0 && Multiple(per, block) && Multiple(base, block) && r < tp
    ensures var first, step := Block(base, block), Block(per, block);
      && Block(base + Times(r, per), block) == first + Times(r, step)
      && Block(base + Times(r + 1, per), block) == first + Times(r, step) + step
      && Times(r + 1, step) == Times(r, step) + step && Times(r + 1, step) <= Times(tp, step)
  {
    TimesAligned(r, per, block);
    TimesAligned(r + 1, per, block);
    SumAligned(base, Times(r, per), block);
    SumAligned(base, Times(r + 1, per), block);
    TimesNext(r, Block(per, block));
    TimesMonotone(r + 1, tp, Block(per, block));
  }

  ghost predicate AllAt(pos: seq<nat>, n: nat, at: nat) {
    |pos| == n && forall q :: 0 <= q < n ==> pos[q] == at
  }

  ghost predicate LongEnough<T>(parts: seq<seq<T>>, n: nat) {
    forall q :: 0 <= q < |parts| ==> n <= |parts[q]|
  }

  /** The output and the running positions once the first r ranks are pasted. */
  ghost predicate Pasted<T>(parts: seq<seq<T>>, was: seq<T>, r: nat, at: nat, step: nat, filled: seq<T>,
                            pos: seq<nat>) {
    && r <= |parts| == |pos|
    && (forall q :: 0 <= q < |parts| ==> pos[q] == if q < r then at + step else at)
    && |filled| == |was| + Times(r, step)
    && filled == was + Gather(parts, r, at, step)
  }

  lemma PastedNext<T>(parts: seq<seq<T>>, was: seq<T>, r: nat, at: nat, step: nat, filled: seq<T>, pos: seq<nat>)
    requires Pasted(parts, was, r, at, step, filled, pos) && r < |parts| && LongEnough(parts, at + step)
    ensures at + step <= |parts[r]| && |parts| == |pos| && pos[r] == at && |filled| == |was| + Times(r, step)
    ensures Pasted(parts, was, r + 1, at, step, filled + parts[r][at..at + step], pos[r := at + step])
  {
    SliceInside(parts[r], at, at + step);
    TimesNext(r, step);
    hide Times;
    assert r + 1 - 1 == r;
    assert was + (Gather(parts, r, at, step) + parts[r][at..at + step]) == filled + parts[r][at..at + step];
  }

  /** One segment: every rank's stretch is pasted after the one before. */
  method ScatterSegment<T>(parts: seq<seq<T>>, tp: nat, per: nat, base: nat, block: nat, buf: array<T>, pos0: seq<nat>,
                           ghost at: nat)
    returns (pos: seq<nat>)
    requires block > 0 && Multiple(per, block) && Multiple(base, block) && |parts| == tp
    requires Block(base, block) + Times(tp, Block(per, block)) <= buf.Length
    requires AllAt(pos0, tp, at) && LongEnough(parts, at + Block(per, block))
    modifies buf
    ensures AllAt(pos, tp, at + Block(per, block))
    ensures buf[..Block(base, block) + Times(tp, Block(per, block))] ==
      old(buf[..Block(base, block)]) + Gather(parts, tp, at, Block(per, block))
  {
    hide Times, Block, Gather, Pasted, AllAt, LongEnough, Multiple;
    ghost var first, step, was := Block(base, block), Block(per, block), buf[..Block(base, block)];
    pos := pos0;
    TimesZero(step);
    PastedNone(parts, was, at, step, pos);
    var r := 0;
    while r < tp
      invariant 0 <= r <= tp && first + Times(r, step) <= buf.Length
      invariant Pasted(parts, was, r, at, step, buf[..first + Times(r, step)], pos)
    {
      RankSlot(tp, base, per, r, block);
      ghost var slot := first + Times(r, step);
      PastedNext(parts, was, r, at, step, buf[..slot], pos);
      var sb, se := Block(base + Times(r, per), block), Block(base + Times(r + 1, per), block);
      assert sb == slot && se == slot + step && pos[r] == at;
      var piece := parts[r][pos[r]..pos[r] + (se - sb)];
      Paste(buf, sb, piece);
      pos := pos[r := pos[r] + (se - sb)];
      r := r + 1;
      assert first + Times(r, step) == slot + step;
    }
    PastedAll(parts, was, tp, at, step, buf[..first + Times(r, step)], pos);
  }

  lemma PastedNone<T>(parts: seq<seq<T>>, was: seq<T>, at: nat, step: nat, pos: seq<nat>)
    requires AllAt(pos, |parts|, at)
    ensures Pasted(parts, was, 0, at, step, was, pos)
  {
    TimesZero(step);
  }

  lemma PastedAll<T>(parts: seq<seq<T>>, was: seq<T>, r: nat, at: nat, step: nat, filled: seq<T>, pos: seq<nat>)
    requires Pasted(parts, was, r, at, step, filled, pos) && r == |parts|
    ensures AllAt(pos, r, at + step) && filled == was + Gather(parts, r, at, step)
  {
  }

  /** Every part is long enough for all segments. */
  ghost predicate Supplies<T>(parts: seq<seq<T>>, at: nat, pers: seq<nat>) {
    forall r :: 0 <= r < |parts| ==> |parts[r]| == at + Sum(pers)
  }

  /** What the loop has filled before segment k, and what is left for it. */
  ghost predicate Filled<T>(parts: seq<seq<T>>, ins: seq<nat>, k: nat, at: nat, done: seq<T>, total: nat) {
    && k <= |ins| && Supplies(parts, at, ins[k..])
    && |done| + Span(|parts|, ins[k..]) == total
    && done + FromRanks(parts, ins[k..], at) == FromRanks(parts, ins, 0)
  }

  lemma {:induction false} FilledNext<T>(parts: seq<seq<T>>, ins: seq<nat>, k: nat, at: nat, done: seq<T>, total: nat)
    requires k < |ins| && Filled(parts, ins, k, at, done, total)
    ensures |done| + Times(|parts|, ins[k]) <= total
    ensures LongEnough(parts, at + ins[k])
    ensures |Gather(parts, |parts|, at, ins[k])| == Times(|parts|, ins[k])
    ensures Filled(parts, ins, k + 1, at + ins[k], done + Gather(parts, |parts|, at, ins[k]), total)
  {
    hide Times, Gather, Supplies, Sum, Span, FromRanks;
    var rest, g, next := ins[k..], Gather(parts, |parts|, at, ins[k]), ins[k + 1..];
    assert rest[0] == ins[k] && rest[1..] == next;
    SuppliesNext(parts, at, rest);
    GatherLength(parts, |parts|, at, ins[k]);
    SpanHead(|parts|, rest);
    FromRanksHead(parts, rest, at);
    var f := FromRanks(parts, next, at + ins[k]);
    assert done + (g + f) == (done + g) + f;
  }

  lemma {:induction false} SuppliesNext<T>(parts: seq<seq<T>>, at: nat, pers: seq<nat>)
    requires pers != [] && Supplies(parts, at, pers)
    ensures Supplies(parts, at + pers[0], pers[1..]) && LongEnough(parts, at + pers[0])
  {
  }

  lemma {:induction false} SpanHead(tp: nat, pers: seq<nat>)
    requires pers != []
    ensures Span(tp, pers) == Times(tp, pers[0]) + Span(tp, pers[1..])
  {
  }

  lemma {:induction false} FromRanksHead<T>(parts: seq<seq<T>>, pers: seq<nat>, at: nat)
    requires pers != []
    ensures FromRanks(parts, pers, at) ==
      Gather(parts, |parts|, at, pers[0]) + FromRanks(parts, pers[1..], at + pers[0])
  {
  }

  lemma {:induction false} GatherLength<T>(parts: seq<seq<T>>, k: nat, at: nat, per: nat)
    requires k <= |parts| && LongEnough(parts, at + per)
    ensures |Gather(parts, k, at, per)| == Times(k, per)
  {
    if k == 0 {
      TimesZero(per);
    } else {
      assert at + per <= |parts[k - 1]|;
      hide Slice, Times, LongEnough;
      GatherLength(parts, k - 1, at, per);
      SliceInside(parts[k - 1], at, at + per);
      TimesNext(k - 1, per);
      assert k - 1 + 1 == k;
    }
  }

  /** Parts as long as the segments say, every segment in whole blocks. */
  ghost predicate Scatterable<T>(parts: seq<seq<T>>, tp: nat, segs: seq<Segment>, block: nat)
  {
    tp > 0 && block > 0 && |parts| == tp && Splits(tp, segs) && AllAligned(Pers(tp, segs), block)
    && Supplies(parts, 0, InBlocks(Pers(tp, segs), block))
  }

  /** Where the loop stands before segment k. */
  ghost predicate ScatterAt<T>(parts: seq<seq<T>>, tp: nat, ins: seq<nat>, block: nat, k: nat, pos: seq<nat>, base: nat,
                               at: nat, buf: seq<T>)
    requires block > 0
  {
    && k <= |ins| && AllAt(pos, tp, at) && Multiple(base, block) && Block(base, block) <= |buf|
    && Filled(parts, ins, k, at, buf[..Block(base, block)], |buf|)
  }

  /**
   * Fill the output segment by segment and rank by rank, with a running position per
   * rank; `block` is 1 for weights and the block height for scale grids.
   */
  method Scatter<T(0)>(parts: seq<seq<T>>, tp: nat, segs: seq<Segment>, block: nat) returns (out: seq<T>)
    requires Scatterable(parts, tp, segs, block)
    ensures out == FromRanks(parts, Blocks(tp, segs, block), 0)
  {
    hide Scatterable, Filled, FromRanks, Block, Splits, Pers, InBlocks, AllAt, Multiple, Per, ScatterAt;
    FilledStart(parts, tp, segs, block);
    ghost var ins := Blocks(tp, segs, block);
    var total := TotalOf(segs);
    var buf := new T[Block(total, block)];
    var pos: seq<nat>, base: nat := seq(tp, r => 0), 0;
    ghost var at: nat := 0;
    StartAt(parts, tp, ins, block, pos, buf[..]);
    var k := 0;
    while k < |segs|
      invariant 0 <= k <= |segs| && ScatterAt(parts, tp, ins, block, k, pos, base, at, buf[..])
    {
      SegmentEnd(parts, tp, segs, k, base, block, pos, at, buf[..]);
      ghost var before, pos0 := buf[..], pos;
      pos := ScatterSegment(parts, tp, Per(tp, segs[k]), base, block, buf, pos, at);
      NextAt(parts, tp, segs, k, base, block, pos0, at, before, buf[..], pos);
      base := base + segs[k].size.value;
      at := at + ins[k];
      k := k + 1;
    }
    FilledDone(parts, tp, ins, block, pos, base, at, buf[..]);
    out := buf[..];
  }

  /** Rows per rank of every segment, in blocks. */
  ghost function Blocks(tp: nat, segs: seq<Segment>, block: nat): (ins: seq<nat>)
    requires Splits(tp, segs) && block > 0
    ensures |ins| == |segs|
  {
    InBlocks(Pers(tp, segs), block)
  }

  lemma StartAt<T>(parts: seq<seq<T>>, tp: nat, ins: seq<nat>, block: nat, pos: seq<nat>, buf: seq<T>)
    requires block > 0 && pos == seq(tp, r => 0) && Filled(parts, ins, 0, 0, [], |buf|)
    ensures ScatterAt(parts, tp, ins, block, 0, pos, 0, 0, buf)
  {
    assert Block(0, block) == 0 && buf[..0] == [];
  }

  lemma FilledStart<T>(parts: seq<seq<T>>, tp: nat, segs: seq<Segment>, block: nat)
    requires Scatterable(parts, tp, segs, block)
    ensures tp > 0 && block > 0 && Splits(tp, segs)
    ensures Filled(parts, Blocks(tp, segs, block), 0, 0, [], Block(Total(segs), block))
  {
    var ins := Blocks(tp, segs, block);
    SpanIsTotal(tp, segs);
    SpanInBlocks(tp, Pers(tp, segs), block);
    hide Pers, InBlocks, Times, Splits, Span, Gather, Total;
    assert ins[0..] == ins && [] + FromRanks(parts, ins, 0) == FromRanks(parts, ins, 0);
  }

  lemma SegmentSize(tp: nat, segs: seq<Segment>, k: nat, base: nat, block: nat)
    requires tp > 0 && block > 0 && Splits(tp, segs) && AllAligned(Pers(tp, segs), block) && k < |segs| &&
      Multiple(base, block)
    ensures segs[k].size.Some?
    ensures var size := segs[k].size.value; var per := Per(tp, segs[k]);
      && Multiple(base + size, block) && Multiple(per, block)
      && Block(base + size, block) == Block(base, block) + Times(tp, Block(per, block))
      && Block(per, block) == Blocks(tp, segs, block)[k]
  {
    var size := segs[k].size.value;
    assert Pers(tp, segs)[k] == Per(tp, segs[k]);
    TimesAll(tp, size);
    TimesAligned(tp, Per(tp, segs[k]), block);
    SumAligned(base, size, block);
  }

  lemma SegmentEnd<T>(parts: seq<seq<T>>, tp: nat, segs: seq<Segment>, k: nat, base: nat, block: nat, pos: seq<nat>,
                      at: nat, buf: seq<T>)
    requires Scatterable(parts, tp, segs, block) && Splits(tp, segs) && block > 0 && tp > 0 && k < |segs|
    requires ScatterAt(parts, tp, Blocks(tp, segs, block), block, k, pos, base, at, buf)
    ensures segs[k].size.Some? && |parts| == tp
    ensures var per := Per(tp, segs[k]);
      && Multiple(base, block) && Multiple(per, block) && AllAt(pos, tp, at)
      && Block(base, block) <= Block(base, block) + Times(tp, Block(per, block)) <= |buf| &&
        LongEnough(parts, at + Block(per, block))
  {
    hide Filled, Block, Multiple, Splits, AllAligned, Supplies, Times, Blocks;
    SegmentSize(tp, segs, k, base, block);
    FilledNext(parts, Blocks(tp, segs, block), k, at, buf[..Block(base, block)], |buf|);
  }

  lemma NextAt<T>(parts: seq<seq<T>>, tp: nat, segs: seq<Segment>, k: nat, base: nat, block: nat, pos0: seq<nat>,
                  at: nat, was: seq<T>, buf: seq<T>, pos: seq<nat>)
    requires Scatterable(parts, tp, segs, block) && Splits(tp, segs) && block > 0 && tp > 0 && k < |segs| &&
      segs[k].size.Some?
    requires ScatterAt(parts, tp, Blocks(tp, segs, block), block, k, pos0, base, at, was) && |was| == |buf|
    requires var step := Block(Per(tp, segs[k]), block);
      && AllAt(pos, tp, at + step) && Block(base, block) + Times(tp, step) <= |buf|
      && Block(base, block) <= |was| &&
        buf[..Block(base, block) + Times(tp, step)] == was[..Block(base, block)] + Gather(parts, |parts|, at, step)
    ensures ScatterAt(parts, tp, Blocks(tp, segs, block), block, k + 1, pos, base + segs[k].size.value, at +
        Blocks(tp, segs, block)[k], buf)
  {
    hide Filled, Block, Multiple, Splits, AllAligned, Supplies, Times, Blocks, Gather;
    SegmentSize(tp, segs, k, base, block);
    FilledNext(parts, Blocks(tp, segs, block), k, at, was[..Block(base, block)], |was|);
  }

  lemma {:induction false} FilledDone<T>(parts: seq<seq<T>>, tp: nat, ins: seq<nat>, block: nat, pos: seq<nat>,
                                         base: nat, at: nat, buf: seq<T>)
    requires block > 0 && ScatterAt(parts, tp, ins, block, |ins|, pos, base, at, buf)
    ensures buf == FromRanks(parts, ins, 0)
  {
    hide Block;
    assert ins[|ins|..] == [];
    var done := buf[..Block(base, block)];
    assert done + [] == done;
    assert |done| == |buf|;
  }

  method TotalOf(segs: seq<Segment>) returns (n: nat)
    ensures n == Total(segs)
  {
    n := 0;
    var i := 0;
    while i < |segs|
      invariant 0 <= i <= |segs| && n + Total(segs[i..]) == Total(segs)
    {
      n := n + if segs[i].size.Some? then segs[i].size.value else 0;
      i := i + 1;
    }
  }

  /** Reassembly as the source runs it: concatenation, or the scatter loop for several segments. */
  method Reassemble<T(0)>(tp: nat, p: Plan, shards: seq<Tensor<T>>, block: nat)
    returns (r: Result<Tensor<T>, ShardError>)
    requires tp > 0 && block > 0 && PlanOk(p) && |shards| == tp
    requires p.kind.SplitIn? ==> SameHeight(shards)
    requires p.kind.SplitOut? && |p.segments| > 1 ==> Scatterable(RowsOf(shards), tp, p.segments, block)
    ensures r == Full(tp, p, shards, block)
  {
    hide Splits, Scatterable, FromRanks, Pers, InBlocks, Concat;
    match p.kind {
      case Replicated => return Ok(shards[0]);
      case ByExpert => return Err(ExpertReassembly);
      case SplitIn => return Ok(ConcatCols(shards));
      case SplitOut =>
        if |p.segments| == 1 { return Ok(ConcatRows(shards)); }
        ScatterTotal(RowsOf(shards), tp, p.segments, block);
        var out := Scatter(RowsOf(shards), tp, p.segments, block);
        return Ok(Tensor(out, shards[0].cols));
    }
  }

  lemma ScatterTotal<T>(parts: seq<seq<T>>, tp: nat, segs: seq<Segment>, block: nat)
    requires Scatterable(parts, tp, segs, block)
    ensures block > 0 && Splits(tp, segs) && Total(segs) % block == 0
  {
    SpanIsTotal(tp, segs);
    SpanInBlocks(tp, Pers(tp, segs), block);
  }

  lemma {:induction false} RangesLength(tp: nat, pers: seq<nat>, r: nat, base: nat)
    ensures Length(RowRanges(tp, pers, r, base)) == Sum(pers)
    decreases |pers|
  {
    if pers != [] {
      RangesLength(tp, pers[1..], r, base + Times(tp, pers[0]));
      TimesNext(r, pers[0]);
    }
  }

  /** The shards of an accepted tensor are what the scatter loop expects. */
  lemma {:induction false} ShardsScatter<T>(tp: nat, segs: seq<Segment>, t: Tensor<T>)
    requires tp > 0 && Splits(tp, segs) && Total(segs) == |t.rows|
    ensures Scatterable(RowsOf(Shards(tp, SplitOut, Pers(tp, segs), t)), tp, segs, 1)
  {
    var pers := Pers(tp, segs);
    var parts := RowsOf(Shards(tp, SplitOut, pers, t));
    SpanIsTotal(tp, segs);
    hide Cut, RowRanges, Splits, Pers, Length;
    forall r | 0 <= r < tp ensures |parts[r]| == Sum(pers) {
      RowRangesWithin(tp, pers, r, 0);
      RangesLength(tp, pers, r, 0);
      CutAt(t.rows, RowRanges(tp, pers, r, 0));
    }
    assert InBlocks(pers, 1) == pers;
  }
}
