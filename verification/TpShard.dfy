/**
 * Tensor-parallel slices of block-quantized weights: which rows or columns a rank
 * holds, which scale rows go with them, and what dequantizing a slice gives.
 *
 * A range can be followed by the block grid when it starts on a block or stays inside
 * one; several ranges must be whole blocks.
 */
module TpShard {
  import opened Prelude
  import Modular

  type Range = (nat, nat)

  datatype ShardError =
    | NotDivisible | Misaligned | DynamicSize | WrongDim | NoRanges | EmptySlice | CutsBlock
    | SegmentsNotAligned | ExpertScale | ExpertReassembly | ScaleShape | NotOwned

  datatype Kind = Replicated | SplitOut | SplitIn | ByExpert

  /** `size` is None for the vocabulary, whose size comes from the tensor. */
  datatype Segment = Segment(size: Option<nat>, unit: nat)

  datatype Plan = Plan(kind: Kind, segments: seq<Segment>, expert: nat)

  datatype Tensor<T> = Tensor(rows: seq<seq<T>>, cols: nat) {
    ghost predicate Valid() { forall i :: 0 <= i < |rows| ==> |rows[i]| == cols }
  }

  // ---------------------------------------------------------------------------
  // Plans
  // ---------------------------------------------------------------------------

  datatype Config = Config(attnHeads: nat, attnKvHeads: nat, attnHeadDim: nat,
                           linKHeads: nat, linVHeads: nat, linKDim: nat, linVDim: nat, nExperts: nat)

  datatype Name = Vocab | Query | KeyValue | AttnOut | GdnQkv | GdnGate | GdnPerHead | GdnOut | Expert(id: nat) | Other

  /** What the constructor accepts, for head dimensions that are positive. */
  predicate Accepted(c: Config, tp: nat) {
    && tp > 1 && c.attnHeadDim > 0 && c.linKDim > 0 && c.linVDim > 0
    && c.attnHeads % tp == 0 && c.attnKvHeads % tp == 0 && c.linKHeads % tp == 0 && c.linVHeads % tp == 0 &&
      c.nExperts % tp == 0
  }

  function Single(kind: Kind, size: nat, unit: nat): Plan {
    Plan(kind, [Segment(Some(size), unit)], 0)
  }

  function PlanFor(c: Config, name: Name): Plan {
    match name
    case Vocab => Plan(SplitOut, [Segment(None, 1)], 0)
    case Query => Single(SplitOut, c.attnHeads * (2 * c.attnHeadDim), 2 * c.attnHeadDim)
    case KeyValue => Single(SplitOut, c.attnKvHeads * c.attnHeadDim, c.attnHeadDim)
    case AttnOut => Single(SplitIn, c.attnHeads * c.attnHeadDim, c.attnHeadDim)
    case GdnQkv =>
      var k, v := Segment(Some(c.linKHeads * c.linKDim), c.linKDim), Segment(Some(c.linVHeads * c.linVDim), c.linVDim);
      Plan(SplitOut, [k, k, v], 0)
    case GdnGate => Single(SplitOut, c.linVHeads * c.linVDim, c.linVDim)
    case GdnPerHead => Single(SplitOut, c.linVHeads, 1)
    case GdnOut => Single(SplitIn, c.linVHeads * c.linVDim, c.linVDim)
    case Expert(id) => Plan(ByExpert, [], id)
    case Other => Plan(Replicated, [], 0)
  }

  /** Splits have segments with positive units; column splits have one, of known size. */
  predicate PlanOk(p: Plan) {
    && (p.kind.SplitOut? || p.kind.SplitIn? ==> |p.segments| > 0)
    && (forall i :: 0 <= i < |p.segments| ==> p.segments[i].unit > 0)
    && (p.kind.SplitIn? ==> |p.segments| == 1 && p.segments[0].size.Some?)
    && (p.kind.SplitOut? && p.segments[0].size.None? ==> |p.segments| == 1)
    && (forall i :: 0 < i < |p.segments| ==> p.segments[i].size.Some?)
  }

  // ---------------------------------------------------------------------------
  // Ranges
  // ---------------------------------------------------------------------------

  function Times(r: nat, per: nat): nat { r * per }

  function RankRange(base: nat, per: nat, r: nat): Range {
    (base + Times(r, per), base + Times(r + 1, per))
  }

  function SegmentError(tp: nat, s: Segment): Option<ShardError>
    requires tp > 0 && s.unit > 0
  {
    if s.size.None? then Some(DynamicSize)
    else if s.size.value % tp != 0 then Some(NotDivisible)
    else if (s.size.value / tp) % s.unit != 0 then Some(Misaligned)
    else None
  }

  function SegmentsError(tp: nat, segs: seq<Segment>): Option<ShardError>
    requires tp > 0 && forall i :: 0 <= i < |segs| ==> segs[i].unit > 0
  {
    if segs == [] then None
    else if SegmentError(tp, segs[0]).Some? then SegmentError(tp, segs[0])
    else SegmentsError(tp, segs[1..])
  }

  /** Rows per rank. */
  function Per(tp: nat, s: Segment): nat
    requires tp > 0 && s.size.Some?
  {
    s.size.value / tp
  }

  predicate Splits(tp: nat, segs: seq<Segment>) {
    tp > 0 && forall i :: 0 <= i < |segs| ==> segs[i].size.Some? && segs[i].size.value % tp == 0
  }

  /** Rows per rank of each segment. */
  function Pers(tp: nat, segs: seq<Segment>): (pers: seq<nat>)
    requires Splits(tp, segs)
    ensures |pers| == |segs|
  {
    seq(|segs|, i requires 0 <= i < |segs| => Per(tp, segs[i]))
  }

  /** Rank r's range in each segment, the first segment starting at `base`. */
  function RowRanges(tp: nat, pers: seq<nat>, r: nat, base: nat): (rr: seq<Range>)
    ensures |rr| == |pers|
  {
    if pers == [] then [] else [RankRange(base, pers[0], r)] + RowRanges(tp, pers[1..], r, base + Times(tp, pers[0]))
  }

  /** Rows that the segments cover together. */
  function Span(tp: nat, pers: seq<nat>): nat {
    if pers == [] then 0 else Times(tp, pers[0]) + Span(tp, pers[1..])
  }

  lemma {:induction false} SpanIsTotal(tp: nat, segs: seq<Segment>)
    requires Splits(tp, segs)
    ensures Span(tp, Pers(tp, segs)) == Total(segs)
    decreases |segs|
  {
    if segs != [] {
      assert Splits(tp, segs[1..]);
      assert Pers(tp, segs)[1..] == Pers(tp, segs[1..]);
      SpanIsTotal(tp, segs[1..]);
      TimesAll(tp, segs[0].size.value);
    }
  }

  function Total(segs: seq<Segment>): nat {
    if segs == [] then 0 else (if segs[0].size.Some? then segs[0].size.value else 0) + Total(segs[1..])
  }

  function RankRowRanges(tp: nat, segs: seq<Segment>): Result<seq<seq<Range>>, ShardError>
    requires tp > 0 && forall i :: 0 <= i < |segs| ==> segs[i].unit > 0
  {
    NoErrorSplits(tp, segs);
    if SegmentsError(tp, segs).Some? then Err(SegmentsError(tp, segs).value)
    else Ok(seq(tp, r requires 0 <= r => RowRanges(tp, Pers(tp, segs), r, 0)))
  }

  lemma {:induction false} NoErrorSplits(tp: nat, segs: seq<Segment>)
    requires tp > 0 && forall i :: 0 <= i < |segs| ==> segs[i].unit > 0
    ensures SegmentsError(tp, segs).None? <==>
      Splits(tp, segs) && forall i :: 0 <= i < |segs| ==> (segs[i].size.value / tp) % segs[i].unit == 0
  {
    if segs != [] {
      NoErrorSplits(tp, segs[1..]);
      assert forall i :: 0 < i < |segs| ==> segs[i] == segs[1..][i - 1];
    }
  }

  /** The segments with the size of a dynamic one filled in from the tensor. */
  function Known(p: Plan, rows: nat): seq<Segment>
    requires |p.segments| > 0
  {
    if p.segments[0].size.None? then [Segment(Some(rows), 1)] else p.segments
  }

  function RankRanges(tp: nat, p: Plan, rows: nat, cols: nat): Result<seq<seq<Range>>, ShardError>
    requires tp > 0 && PlanOk(p)
  {
    if p.kind.SplitOut? then
      if p.segments[0].size.None? then RankRowRanges(tp, Known(p, rows))
      else if Total(p.segments) != rows then Err(WrongDim)
      else RankRowRanges(tp, p.segments)
    else if p.kind.SplitIn? then
      if p.segments[0].size.value != cols then Err(WrongDim)
      else RankRowRanges(tp, p.segments)
    else Err(NoRanges)
  }

  /** A range that a block grid can follow: aligned at its start, or inside one block. */
  predicate Followable(rg: Range, block: nat)
    requires block > 0
  {
    rg.0 < rg.1 && (rg.0 % block == 0 || (rg.1 - 1) / block == rg.0 / block)
  }

  function RangesError(rr: seq<Range>, quantized: bool, block: nat): Option<ShardError>
    requires block > 0
  {
    if rr == [] then None
    else if rr[0].1 <= rr[0].0 then Some(EmptySlice)
    else if quantized && rr[0].0 % block != 0 && (rr[0].1 - 1) / block != rr[0].0 / block then Some(CutsBlock)
    else RangesError(rr[1..], quantized, block)
  }

  function RanksError(rrs: seq<seq<Range>>, quantized: bool, block: nat): Option<ShardError>
    requires block > 0
  {
    if rrs == [] then None
    else if RangesError(rrs[0], quantized, block).Some? then RangesError(rrs[0], quantized, block)
    else RanksError(rrs[1..], quantized, block)
  }

  /** None when the plan is usable for a tensor of this shape. */
  function ValidateTensor(tp: nat, block: nat, p: Plan, rows: nat, cols: nat, quantized: bool): Option<ShardError>
    requires tp > 0 && block > 0 && PlanOk(p)
  {
    if p.kind.Replicated? || p.kind.ByExpert? then None
    else
      match RankRanges(tp, p, rows, cols)
      case Err(e) => Some(e)
      case Ok(rrs) => RanksError(rrs, quantized, block)
  }

  lemma {:induction false} RangesErrorIff(rr: seq<Range>, block: nat)
    requires block > 0
    ensures RangesError(rr, true, block).None? <==> forall k :: 0 <= k < |rr| ==> Followable(rr[k], block)
  {
    if rr != [] {
      RangesErrorIff(rr[1..], block);
      assert forall k :: 0 < k < |rr| ==> rr[k] == rr[1..][k - 1];
    }
  }

  lemma {:induction false} RanksErrorIff(rrs: seq<seq<Range>>, block: nat)
    requires block > 0
    ensures RanksError(rrs, true, block).None? <==>
      forall r, k :: 0 <= r < |rrs| && 0 <= k < |rrs[r]| ==> Followable(rrs[r][k], block)
  {
    if rrs != [] {
      RangesErrorIff(rrs[0], block);
      RanksErrorIff(rrs[1..], block);
      assert forall r :: 0 < r < |rrs| ==> rrs[r] == rrs[1..][r - 1];
    }
  }

  // ---------------------------------------------------------------------------
  // Slices along one axis
  // ---------------------------------------------------------------------------

  function CeilDiv(n: nat, m: nat): nat
    requires m > 0
  {
    (n + m - 1) / m
  }

  function Clip(i: nat, n: nat): nat { if i < n then i else n }

  /** A slice that clips at the end, as array slicing does. */
  function Slice<T>(s: seq<T>, lo: nat, hi: nat): seq<T> {
    if Clip(lo, |s|) <= Clip(hi, |s|) then s[Clip(lo, |s|)..Clip(hi, |s|)] else []
  }

  function Cut<T>(s: seq<T>, rr: seq<Range>): seq<T> {
    if rr == [] then [] else Slice(s, rr[0].0, rr[0].1) + Cut(s, rr[1..])
  }

  /** The block rows under the ranges: floor at the start and ceiling at the end of each. */
  function BlockRanges(rr: seq<Range>, block: nat): (br: seq<Range>)
    requires block > 0
    ensures |br| == |rr|
  {
    seq(|rr|, k requires 0 <= k < |rr| => (Block(rr[k].0, block), CeilDiv(rr[k].1, block)))
  }

  function Length(rr: seq<Range>): nat {
    if rr == [] then 0 else (if rr[0].0 <= rr[0].1 then rr[0].1 - rr[0].0 else 0) + Length(rr[1..])
  }

  ghost predicate Within(rr: seq<Range>, n: nat) {
    forall k :: 0 <= k < |rr| ==> rr[k].0 <= rr[k].1 <= n
  }

  /** The block that index i falls into. */
  function Block(i: nat, block: nat): nat
    requires block > 0
  {
    i / block
  }

  /** A block grid read at element granularity. */
  function Expand<T>(s: seq<T>, n: nat, block: nat): (e: seq<T>)
    requires block > 0 && |s| == CeilDiv(n, block)
    ensures |e| == n
  {
    seq(n, i requires 0 <= i < n => (BlockOf(i, n, block); s[Block(i, block)]))
  }

  lemma BlockOf(i: nat, n: nat, block: nat)
    requires i < n && block > 0
    ensures Block(i, block) < CeilDiv(n, block)
  {
    Modular.DivMonotone(i + block, n + block - 1, block);
    Modular.AddMultiple(i, 1, block);
  }

  lemma AlignedCeil(n: nat, block: nat)
    requires block > 0 && n % block == 0
    ensures CeilDiv(n, block) == n / block && CeilDiv(n, block) * block == n
  {
    assert n == (n / block) * block;
    Modular.DivModUnique(n + block - 1, block, n / block, block - 1);
  }

  lemma RangeBlocks(rg: Range, block: nat)
    requires block > 0 && Followable(rg, block)
    ensures CeilDiv(rg.1, block) - Block(rg.0, block) == CeilDiv(rg.1 - rg.0, block)
  {
    var (b, e) := rg;
    var q := b / block;
    assert b == q * block + b % block;
    if b % block == 0 {
      Modular.AddMultiple(e - b + block - 1, q, block);
      assert e + block - 1 == (e - b + block - 1) + q * block;
    } else {
      assert e - 1 == q * block + (e - 1) % block;
      assert (q + 1) * block == q * block + block;
      Modular.DivModUnique(e + block - 1, block, q + 1, (e - 1) % block);
      Modular.DivModUnique(e - b + block - 1, block, 1, e - b - 1);
    }
  }

  lemma RangeIndex(rg: Range, block: nat, i: nat)
    requires block > 0 && Followable(rg, block) && i < rg.1 - rg.0
    ensures Block(rg.0 + i, block) == Block(rg.0, block) + Block(i, block)
  {
    var (b, e) := rg;
    var q := b / block;
    assert b == q * block + b % block;
    if b % block == 0 {
      Modular.AddMultiple(i, q, block);
    } else {
      assert e - 1 == q * block + (e - 1) % block;
      Modular.DivModUnique(i, block, 0, i);
      Modular.DivModUnique(b + i, block, q, b % block + i);
    }
  }

  /** One followable range: its block rows, read at element granularity, are the slice of the whole. */
  lemma ExpandOne<T>(s: seq<T>, n: nat, rg: Range, block: nat)
    requires block > 0 && |s| == CeilDiv(n, block) && Followable(rg, block) && rg.1 <= n
    ensures var part := Slice(s, Block(rg.0, block), CeilDiv(rg.1, block));
      && |part| == CeilDiv(rg.1 - rg.0, block)
      && Expand(part, rg.1 - rg.0, block) == Slice(Expand(s, n, block), rg.0, rg.1)
  {
    var (b, e) := rg;
    RangeBlocks(rg, block);
    Modular.DivMonotone(e + block - 1, n + block - 1, block);
    assert CeilDiv(e, block) <= |s| && b < e;
    hide CeilDiv, Followable, Block, Slice;
    var lo, hi := Block(b, block), CeilDiv(e, block);
    SliceInside(s, lo, hi);
    var part := s[lo..hi];
    var lhs, whole := Expand(part, e - b, block), Expand(s, n, block);
    SliceInside(whole, b, e);
    forall i | 0 <= i < e - b ensures lhs[i] == whole[b + i] {
      RangeIndex(rg, block, i);
      BlockOf(i, e - b, block);
      BlockOf(b + i, n, block);
    }
  }

  lemma SliceInside<T>(s: seq<T>, lo: nat, hi: nat)
    requires lo <= hi <= |s|
    ensures Slice(s, lo, hi) == s[lo..hi]
  {
  }

  lemma BlockPast(i: nat, m: nat, block: nat)
    requires block > 0 && m % block == 0 && m <= i
    ensures Block(i, block) == m / block + Block(i - m, block)
  {
    assert m == (m / block) * block;
    Modular.AddMultiple(i - m, m / block, block);
  }

  /** Aligned pieces: block rows placed one after the other. */
  lemma ExpandAppend<T>(s: seq<T>, m: nat, t: seq<T>, n: nat, block: nat)
    requires block > 0 && m % block == 0 && |s| == CeilDiv(m, block) && |t| == CeilDiv(n, block)
    ensures |s + t| == CeilDiv(m + n, block)
    ensures Expand(s + t, m + n, block) == Expand(s, m, block) + Expand(t, n, block)
  {
    AlignedCeil(m, block);
    var q := m / block;
    assert m + n + block - 1 == (n + block - 1) + q * block;
    Modular.AddMultiple(n + block - 1, q, block);
    assert |s + t| == CeilDiv(m + n, block);
    var lhs, a, c := Expand(s + t, m + n, block), Expand(s, m, block), Expand(t, n, block);
    hide CeilDiv, Block;
    forall i | 0 <= i < m + n ensures lhs[i] == (a + c)[i] {
      if i < m {
        BlockOf(i, m, block);
      } else {
        BlockPast(i, m, block);
        BlockOf(i - m, n, block);
      }
    }
  }

  /** One followable range, or any number of aligned ones. */
  ghost predicate Sliceable(rr: seq<Range>, block: nat)
    requires block > 0
  {
    && (forall k :: 0 <= k < |rr| ==> Followable(rr[k], block))
    && (|rr| == 1 || forall k :: 0 <= k < |rr| ==> rr[k].0 % block == 0 && rr[k].1 % block == 0)
  }

  /** Reading the sliced block grid at element granularity is slicing the grid read at element granularity. */
  lemma {:induction false} ExpandCommutes<T>(s: seq<T>, n: nat, rr: seq<Range>, block: nat)
    requires block > 0 && |s| == CeilDiv(n, block) && Within(rr, n) && Sliceable(rr, block)
    ensures |Cut(s, BlockRanges(rr, block))| == CeilDiv(Length(rr), block)
    ensures Expand(Cut(s, BlockRanges(rr, block)), Length(rr), block) == Cut(Expand(s, n, block), rr)
  {
    if rr == [] {
      Modular.DivModUnique(block - 1, block, 0, block - 1);
    } else {
      hide CeilDiv, Slice, Followable, Block, BlockRanges, Expand, Cut, Length, Sliceable;
      SliceableRest(rr, block);
      var rest := rr[1..];
      ExpandOne(s, n, rr[0], block);
      BlockRangesHead(rr, block);
      ExpandCommutes(s, n, rest, block);
      CutHead(s, BlockRanges(rr, block));
      CutHead(Expand(s, n, block), rr);
      var part := Slice(s, Block(rr[0].0, block), CeilDiv(rr[0].1, block));
      if |rr| == 1 {
        CutNone(s, Expand(s, n, block), rest, block);
      }
      ExpandJoin(part, rr[0].1 - rr[0].0, Cut(s, BlockRanges(rest, block)), Length(rest), block,
        Cut(s, BlockRanges(rr, block)), Length(rr));
    }
  }

  lemma ExpandJoin<T>(s: seq<T>, m: nat, t: seq<T>, n: nat, block: nat, whole: seq<T>, total: nat)
    requires block > 0 && |s| == CeilDiv(m, block) && |t| == CeilDiv(n, block)
    requires whole == s + t && total == m + n && (m % block == 0 || (n == 0 && t == []))
    ensures |whole| == CeilDiv(total, block)
    ensures Expand(whole, total, block) == Expand(s, m, block) + Expand(t, n, block)
  {
    if m % block == 0 {
      ExpandAppend(s, m, t, n, block);
    } else {
      assert whole == s && total == m;
      assert Expand(t, n, block) == [];
    }
  }

  lemma SliceableRest(rr: seq<Range>, block: nat)
    requires block > 0 && rr != [] && Sliceable(rr, block)
    ensures Sliceable(rr[1..], block) && Followable(rr[0], block)
    ensures |rr| > 1 ==> (rr[0].1 - rr[0].0) % block == 0
  {
    if |rr| > 1 { AlignedDifference(rr[0], block); }
  }

  lemma CutNone<T>(s: seq<T>, e: seq<T>, rr: seq<Range>, block: nat)
    requires block > 0 && rr == []
    ensures Cut(s, BlockRanges(rr, block)) == [] && Cut(e, rr) == [] && Length(rr) == 0
  {
  }

  lemma BlockRangesHead(rr: seq<Range>, block: nat)
    requires block > 0 && rr != []
    ensures BlockRanges(rr, block)[0] == (Block(rr[0].0, block), CeilDiv(rr[0].1, block))
    ensures BlockRanges(rr, block)[1..] == BlockRanges(rr[1..], block)
  {
  }

  lemma CutHead<T>(s: seq<T>, rr: seq<Range>)
    requires rr != []
    ensures Cut(s, rr) == Slice(s, rr[0].0, rr[0].1) + Cut(s, rr[1..])
    ensures rr[0].0 <= rr[0].1 ==> Length(rr) == rr[0].1 - rr[0].0 + Length(rr[1..])
  {
  }

  lemma AlignedDifference(rg: Range, block: nat)
    requires block > 0 && rg.0 <= rg.1 && rg.0 % block == 0 && rg.1 % block == 0
    ensures (rg.1 - rg.0) % block == 0
  {
    var p, q := rg.0 / block, rg.1 / block;
    assert rg.0 == p * block && rg.1 == q * block;
    assert (q - p) * block == q * block - p * block;
    Modular.MultipleMod(q - p, block);
  }

  // ---------------------------------------------------------------------------
  // Dequantization
  // ---------------------------------------------------------------------------

  /** Each block index repeated `block` times. */
  function RepeatIndex(blocks: nat, block: nat): seq<nat> {
    if blocks == 0 then [] else RepeatIndex(blocks - 1, block) + seq(block, i => blocks - 1)
  }

  lemma {:induction false} RepeatIndexAt(blocks: nat, block: nat)
    requires block > 0
    ensures |RepeatIndex(blocks, block)| == Times(blocks, block)
    ensures forall i :: 0 <= i < |RepeatIndex(blocks, block)| ==> RepeatIndex(blocks, block)[i] == Block(i, block)
  {
    if blocks > 0 {
      RepeatIndexAt(blocks - 1, block);
      var before := RepeatIndex(blocks - 1, block);
      assert Times(blocks, block) == Times(blocks - 1, block) + block;
      forall i | |before| <= i < |before| + block ensures Block(i, block) == blocks - 1 {
        Modular.DivModUnique(i, block, blocks - 1, i - |before|);
      }
    }
  }

  /** The block of every element of an axis: the repeated indices, cut to the axis length. */
  function BlockIndex(n: nat, block: nat): (idx: seq<nat>)
    requires block > 0
    ensures |idx| == n && forall i :: 0 <= i < n ==> idx[i] == Block(i, block) && idx[i] < CeilDiv(n, block)
  {
    var blocks := n / block + if n % block != 0 then 1 else 0;
    RepeatIndexAt(blocks, block);
    EnoughBlocks(n, block);
    assert forall i :: 0 <= i < n ==> Block(i, block) < CeilDiv(n, block) by {
      forall i | 0 <= i < n ensures Block(i, block) < CeilDiv(n, block) { BlockOf(i, n, block); }
    }
    RepeatIndex(blocks, block)[..n]
  }

  lemma EnoughBlocks(n: nat, block: nat)
    requires block > 0
    ensures n <= Times(n / block + if n % block != 0 then 1 else 0, block)
  {
    assert n == (n / block) * block + n % block;
    assert (n / block + 1) * block == (n / block) * block + block;
  }

  /** Element (i, j) times the scale of its block; the scale grid must have exactly the blocks of the weight. */
  function Dequant(decode: int -> real, w: Tensor<int>, s: Tensor<real>, bh: nat,
                   bw: nat): Result<Tensor<real>, ShardError>
    requires w.Valid() && s.Valid() && bh > 0 && bw > 0
  {
    if |s.rows| != CeilDiv(|w.rows|, bh) || s.cols != CeilDiv(w.cols, bw) then Err(ScaleShape)
    else
      var rows, cols := BlockIndex(|w.rows|, bh), BlockIndex(w.cols, bw);
      Ok(Tensor(seq(|w.rows|, i requires 0 <= i < |w.rows| =>
                  seq(w.cols, j requires 0 <= j < w.cols => decode(w.rows[i][j]) * s.rows[rows[i]][cols[j]])), w.cols))
  }

  function DequantRow(decode: int -> real, w: seq<int>, s: seq<real>, bw: nat): seq<real>
    requires bw > 0 && |s| == CeilDiv(|w|, bw)
  {
    var e := Expand(s, |w|, bw);
    seq(|w|, j requires 0 <= j < |w| => decode(w[j]) * e[j])
  }

  /** Dequantizing scales each row by the expanded scale row of its block. */
  lemma DequantByRow(decode: int -> real, w: Tensor<int>, s: Tensor<real>, bh: nat, bw: nat)
    requires w.Valid() && s.Valid() && bh > 0 && bw > 0 && Dequant(decode, w, s, bh, bw).Ok?
    ensures |s.rows| == CeilDiv(|w.rows|, bh)
    ensures var d, e := Dequant(decode, w, s, bh, bw).value, Expand(s.rows, |w.rows|, bh);
      && d.Valid() && |d.rows| == |w.rows| && d.cols == w.cols
      && forall i :: 0 <= i < |w.rows| ==>
        |e[i]| == CeilDiv(|w.rows[i]|, bw) && d.rows[i] == DequantRow(decode, w.rows[i], e[i], bw)
  {
    hide Block, CeilDiv, RepeatIndex;
    var d, e := Dequant(decode, w, s, bh, bw).value, Expand(s.rows, |w.rows|, bh);
    forall i | 0 <= i < |w.rows|
      ensures |e[i]| == CeilDiv(|w.rows[i]|, bw) && d.rows[i] == DequantRow(decode, w.rows[i], e[i], bw)
    {
      BlockOf(i, |w.rows|, bh);
      assert e[i] == s.rows[Block(i, bh)];
      var row, x := DequantRow(decode, w.rows[i], e[i], bw), Expand(e[i], w.cols, bw);
      forall j | 0 <= j < w.cols ensures d.rows[i][j] == row[j] {
        BlockOf(j, w.cols, bw);
        assert x[j] == e[i][Block(j, bw)];
      }
    }
  }

  /** The reference loop computes the same matrix, one element at a time. */
  method DequantLoop(decode: int -> real, w: Tensor<int>, s: Tensor<real>, bh: nat, bw: nat) returns (out: array2<real>)
    requires w.Valid() && s.Valid() && bh > 0 && bw > 0
    requires |s.rows| == CeilDiv(|w.rows|, bh) && s.cols == CeilDiv(w.cols, bw)
    ensures fresh(out) && out.Length0 == |w.rows| && out.Length1 == w.cols
    ensures var d := Dequant(decode, w, s, bh, bw).value;
      forall i, j :: 0 <= i < |w.rows| && 0 <= j < w.cols ==> out[i, j] == d.rows[i][j]
  {
    hide Dequant, BlockIndex;
    var h, n := |w.rows|, w.cols;
    DequantAt(decode, w, s, bh, bw);
    ghost var d := Dequant(decode, w, s, bh, bw).value;
    out := new real[h, n]((i, j) => 0.0);
    for i := 0 to h
      invariant forall i', j :: 0 <= i' < i && 0 <= j < n ==> out[i', j] == d.rows[i'][j]
    {
      BlockOf(i, h, bh);
      for j := 0 to n
        invariant forall i', j' :: 0 <= i' < i && 0 <= j' < n ==> out[i', j'] == d.rows[i'][j']
        invariant forall j' :: 0 <= j' < j ==> out[i, j'] == d.rows[i][j']
      {
        BlockOf(j, n, bw);
        out[i, j] := decode(w.rows[i][j]) * s.rows[i / bh][j / bw];
        assert d.rows[i][j] == decode(w.rows[i][j]) * s.rows[Block(i, bh)][Block(j, bw)];
      }
    }
  }

  /** Every element is scaled by the scale of its block. */
  lemma DequantAt(decode: int -> real, w: Tensor<int>, s: Tensor<real>, bh: nat, bw: nat)
    requires w.Valid() && s.Valid() && bh > 0 && bw > 0
    requires |s.rows| == CeilDiv(|w.rows|, bh) && s.cols == CeilDiv(w.cols, bw)
    ensures Dequant(decode, w, s, bh, bw).Ok?
    ensures var d := Dequant(decode, w, s, bh, bw).value;
      && |d.rows| == |w.rows| && d.Valid() && d.cols == w.cols
      && forall i, j :: 0 <= i < |w.rows| && 0 <= j < w.cols ==>
           Block(i, bh) < |s.rows| && Block(j, bw) < s.cols &&
             d.rows[i][j] == decode(w.rows[i][j]) * s.rows[Block(i, bh)][Block(j, bw)]
  {
    hide CeilDiv, Block, RepeatIndex;
    forall i | 0 <= i < |w.rows| ensures Block(i, bh) < |s.rows| { BlockOf(i, |w.rows|, bh); }
    forall j | 0 <= j < w.cols ensures Block(j, bw) < s.cols { BlockOf(j, w.cols, bw); }
  }

  // ---------------------------------------------------------------------------
  // Shards
  // ---------------------------------------------------------------------------

  function CutTensor<T>(kind: Kind, t: Tensor<T>, rr: seq<Range>): Tensor<T> {
    if kind.SplitOut? then Tensor(Cut(t.rows, rr), t.cols)
    else Tensor(seq(|t.rows|, i requires 0 <= i < |t.rows| => Cut(t.rows[i], rr)), Length(rr))
  }

  function Owner(experts: nat, tp: nat, e: nat): nat
    requires tp > 0 && experts / tp > 0
  {
    var o := e / (experts / tp);
    if o < tp - 1 then o else tp - 1
  }

  /** The rank slices of a tensor; None where an expert belongs to another rank. */
  function Shard<T>(tp: nat, experts: nat, p: Plan, t: Tensor<T>): Result<seq<Option<Tensor<T>>>, ShardError>
    requires tp > 0 && PlanOk(p) && (p.kind.ByExpert? ==> experts / tp > 0)
  {
    if p.kind.Replicated? then Ok(seq(tp, r => Some(t)))
    else if p.kind.ByExpert? then Ok(seq(tp, r => if Owner(experts, tp, p.expert) == r then Some(t) else None))
    else
      var ranges := RankRanges(tp, p, |t.rows|, t.cols);
      if ranges.Err? then Err(ranges.error)
      else Ok(seq(|ranges.value|, r requires 0 <= r < |ranges.value| => Some(CutTensor(p.kind, t, ranges.value[r]))))
  }

  predicate SegmentsAligned(tp: nat, segs: seq<Segment>, block: nat)
    requires tp > 0 && block > 0
  {
    forall i :: 0 <= i < |segs| ==> segs[i].size.Some? ==>
      segs[i].size.value % block == 0 && (segs[i].size.value / tp) % block == 0
  }

  /** The scale slices that go with `Shard`; several segments need every boundary on a block. */
  function ShardScale(tp: nat, block: nat, p: Plan, s: Tensor<real>): Result<seq<Tensor<real>>, ShardError>
    requires tp > 0 && block > 0 && PlanOk(p)
  {
    if p.kind.Replicated? then Ok(seq(tp, r => s))
    else if p.kind.ByExpert? then Err(ExpertScale)
    else
      if |p.segments| > 1 && !SegmentsAligned(tp, p.segments, block) then Err(SegmentsNotAligned)
      else
        var ranges := RankRowRanges(tp, p.segments);
        if ranges.Err? then Err(ranges.error)
        else
          Ok(seq(|ranges.value|, r requires 0 <= r < |ranges.value| =>
               CutTensor(p.kind, s, BlockRanges(ranges.value[r], block))))
  }

  // ---------------------------------------------------------------------------
  // Shard, then dequantize
  // ---------------------------------------------------------------------------

  /** The positions lo .. hi-1. */
  function Run(lo: nat, hi: nat): seq<nat> {
    if lo <= hi then seq(hi - lo, i requires i >= 0 => lo + i) else []
  }

  /** The axis positions that the ranges select, in order. */
  function Positions(rr: seq<Range>): seq<nat> {
    if rr == [] then [] else Run(rr[0].0, rr[0].1) + Positions(rr[1..])
  }

  /** `out` lists the elements of s at the given positions. */
  ghost predicate Picks<T>(s: seq<T>, positions: seq<nat>, out: seq<T>) {
    |positions| == |out| && forall i :: 0 <= i < |positions| ==> positions[i] < |s| && out[i] == s[positions[i]]
  }

  lemma PicksAppend<T>(s: seq<T>, p: seq<nat>, a: seq<T>, q: seq<nat>, b: seq<T>)
    requires Picks(s, p, a) && Picks(s, q, b)
    ensures Picks(s, p + q, a + b)
  {
  }

  lemma {:induction false} CutAt<T>(s: seq<T>, rr: seq<Range>)
    requires Within(rr, |s|)
    ensures |Cut(s, rr)| == Length(rr)
    ensures Picks(s, Positions(rr), Cut(s, rr))
  {
    if rr != [] {
      hide Cut, Slice, Positions, Length, Picks;
      CutAt(s, rr[1..]);
      CutHead(s, rr);
      PositionsHead(rr);
      SliceInside(s, rr[0].0, rr[0].1);
      RunPicks(s, rr[0].0, rr[0].1);
      PicksAppend(s, Run(rr[0].0, rr[0].1), s[rr[0].0..rr[0].1], Positions(rr[1..]), Cut(s, rr[1..]));
    }
  }

  lemma RunPicks<T>(s: seq<T>, lo: nat, hi: nat)
    requires lo <= hi <= |s|
    ensures Picks(s, Run(lo, hi), s[lo..hi])
  {
  }

  lemma PositionsHead(rr: seq<Range>)
    requires rr != []
    ensures Positions(rr) == Run(rr[0].0, rr[0].1) + Positions(rr[1..])
  {
  }

  /** Rows: dequantizing the cut weight with the cut scale is cutting the dequantized weight. */
  lemma DequantCutRows(decode: int -> real, w: Tensor<int>, s: Tensor<real>, block: nat, rr: seq<Range>)
    requires w.Valid() && s.Valid() && block > 0 && Dequant(decode, w, s, block, block).Ok?
    requires Within(rr, |w.rows|) && Sliceable(rr, block)
    ensures var w', s' := CutTensor(SplitOut, w, rr), CutTensor(SplitOut, s, BlockRanges(rr, block));
      && w'.Valid() && s'.Valid()
      && Dequant(decode, w', s', block, block) == Ok(CutTensor(SplitOut, Dequant(decode, w, s, block, block).value, rr))
  {
    hide CeilDiv, Block, Sliceable, RepeatIndex, Cut, Positions, Expand, DequantRow, BlockRanges, Dequant;
    var h := |w.rows|;
    var d, w', s' :=
      Dequant(decode, w, s, block, block).value, CutTensor(SplitOut, w, rr),
        CutTensor(SplitOut, s, BlockRanges(rr, block));
    DequantByRow(decode, w, s, block, block);
    DequantSome(decode, w, s, block);
    CutAt(w.rows, rr);
    ExpandCommutes(s.rows, h, rr, block);
    BlocksWithin(rr, h, block);
    CutAt(s.rows, BlockRanges(rr, block));
    CutAt(d.rows, rr);
    DequantSome(decode, w', s', block);
    DequantByRow(decode, w', s', block, block);
    var e := Expand(s.rows, h, block);
    CutAt(e, rr);
    var d', cut := Dequant(decode, w', s', block, block).value, Cut(d.rows, rr);
    forall i | 0 <= i < |cut| ensures d'.rows[i] == cut[i] {
      assert w'.rows[i] == w.rows[Positions(rr)[i]] && cut[i] == d.rows[Positions(rr)[i]];
    }
    assert d'.rows == cut;
  }

  lemma DequantSome(decode: int -> real, w: Tensor<int>, s: Tensor<real>, block: nat)
    requires w.Valid() && s.Valid() && block > 0
    ensures Dequant(decode, w, s, block, block).Ok? <==>
      |s.rows| == CeilDiv(|w.rows|, block) && s.cols == CeilDiv(w.cols, block)
  {
  }

  lemma BlocksWithin(rr: seq<Range>, n: nat, block: nat)
    requires block > 0 && Within(rr, n)
    ensures Within(BlockRanges(rr, block), CeilDiv(n, block))
  {
    forall k | 0 <= k < |rr| ensures Block(rr[k].0, block) <= CeilDiv(rr[k].1, block) <= CeilDiv(n, block) {
      Modular.DivMonotone(rr[k].0, rr[k].1 + block - 1, block);
      Modular.DivMonotone(rr[k].1 + block - 1, n + block - 1, block);
    }
  }

  /** Columns: the same, row by row. */
  lemma DequantCutCols(decode: int -> real, w: Tensor<int>, s: Tensor<real>, block: nat, rr: seq<Range>)
    requires w.Valid() && s.Valid() && block > 0 && Dequant(decode, w, s, block, block).Ok?
    requires Within(rr, w.cols) && Sliceable(rr, block)
    ensures var w', s' := CutTensor(SplitIn, w, rr), CutTensor(SplitIn, s, BlockRanges(rr, block));
      && w'.Valid() && s'.Valid()
      && Dequant(decode, w', s', block, block) == Ok(CutTensor(SplitIn, Dequant(decode, w, s, block, block).value, rr))
  {
    hide CeilDiv, Block, Sliceable, RepeatIndex, Cut, Positions, DequantRow, BlockRanges, Dequant, Length;
    var h := |w.rows|;
    var d, w', s' :=
      Dequant(decode, w, s, block, block).value, CutTensor(SplitIn, w, rr),
        CutTensor(SplitIn, s, BlockRanges(rr, block));
    DequantByRow(decode, w, s, block, block);
    DequantSome(decode, w, s, block);
    BlocksWithin(rr, w.cols, block);
    forall i | 0 <= i < h ensures |w'.rows[i]| == w'.cols { CutAt(w.rows[i], rr); }
    forall i | 0 <= i < |s.rows| ensures |s'.rows[i]| == s'.cols { CutAt(s.rows[i], BlockRanges(rr, block)); }
    CutBlocks(w.cols, rr, block);
    DequantSome(decode, w', s', block);
    DequantByRow(decode, w', s', block, block);
    var d' := Dequant(decode, w', s', block, block).value;
    var e, e' := Expand(s.rows, h, block), Expand(s'.rows, h, block);
    forall i | 0 <= i < h ensures d'.rows[i] == Cut(d.rows[i], rr) {
      BlockOf(i, h, block);
      assert e[i] == s.rows[Block(i, block)] && e'[i] == Cut(e[i], BlockRanges(rr, block));
      DequantCutRow(decode, w.rows[i], e[i], block, rr);
    }
    assert d'.rows == CutTensor(SplitIn, d, rr).rows;
  }

  lemma CutBlocks(n: nat, rr: seq<Range>, block: nat)
    requires block > 0 && Within(rr, n) && Sliceable(rr, block)
    ensures Length(BlockRanges(rr, block)) == CeilDiv(Length(rr), block)
  {
    var any: seq<int> := seq(CeilDiv(n, block), i => 0);
    BlocksWithin(rr, n, block);
    ExpandCommutes(any, n, rr, block);
    CutAt(any, BlockRanges(rr, block));
  }

  lemma DequantCutRow(decode: int -> real, w: seq<int>, s: seq<real>, block: nat, rr: seq<Range>)
    requires block > 0 && |s| == CeilDiv(|w|, block) && Within(rr, |w|) && Sliceable(rr, block)
    ensures |Cut(w, rr)| == Length(rr) && |Cut(s, BlockRanges(rr, block))| == CeilDiv(Length(rr), block)
    ensures DequantRow(decode, Cut(w, rr), Cut(s, BlockRanges(rr, block)), block) ==
      Cut(DequantRow(decode, w, s, block), rr)
  {
    hide CeilDiv, Sliceable, Cut, Positions, BlockRanges, Expand, Length;
    var e := Expand(s, |w|, block);
    CutAt(w, rr);
    CutAt(e, rr);
    ExpandCommutes(s, |w|, rr, block);
    var row, part :=
      DequantRow(decode, w, s, block), DequantRow(decode, Cut(w, rr), Cut(s, BlockRanges(rr, block)), block);
    CutAt(row, rr);
    forall j | 0 <= j < |part| ensures part[j] == Cut(row, rr)[j] {
      assert part[j] == decode(Cut(w, rr)[j]) * Cut(e, rr)[j];
    }
  }

  lemma TimesNext(r: nat, per: nat)
    ensures Times(r + 1, per) == Times(r, per) + per
  {
  }

  lemma TimesMonotone(a: nat, b: nat, per: nat)
    requires a <= b
    ensures Times(a, per) <= Times(b, per)
  {
    Modular.MulMonotone(a, b, per);
  }

  /** tp equal parts make up a size that tp divides. */
  lemma TimesAll(tp: nat, size: nat)
    requires tp > 0 && size % tp == 0
    ensures Times(tp, size / tp) == size
  {
    assert size == (size / tp) * tp;
  }

  lemma {:induction false} RowRangesWithin(tp: nat, pers: seq<nat>, r: nat, base: nat)
    requires r < tp
    ensures Within(RowRanges(tp, pers, r, base), base + Span(tp, pers))
    decreases |pers|
  {
    if pers != [] {
      RowRangesWithin(tp, pers[1..], r, base + Times(tp, pers[0]));
      TimesMonotone(r, r + 1, pers[0]);
      TimesMonotone(r + 1, tp, pers[0]);
      hide Times;
      var rr, rest := RowRanges(tp, pers, r, base), RowRanges(tp, pers[1..], r, base + Times(tp, pers[0]));
      forall k | 0 <= k < |rr| ensures rr[k].0 <= rr[k].1 <= base + Span(tp, pers) {
        if k > 0 { assert rr[k] == rest[k - 1]; }
      }
    }
  }

  ghost predicate AllAligned(ns: seq<nat>, block: nat)
    requires block > 0
  {
    forall i :: 0 <= i < |ns| ==> ns[i] % block == 0
  }

  lemma {:induction false} RowRangesAligned(tp: nat, pers: seq<nat>, r: nat, base: nat, block: nat)
    requires block > 0 && AllAligned(pers, block) && base % block == 0
    ensures forall k :: 0 <= k < |pers| ==>
      RowRanges(tp, pers, r, base)[k].0 % block == 0 && RowRanges(tp, pers, r, base)[k].1 % block == 0
    decreases |pers|
  {
    if pers != [] {
      var next := base + Times(tp, pers[0]);
      var rr, rest := RowRanges(tp, pers, r, base), RowRanges(tp, pers[1..], r, next);
      TimesAligned(tp, pers[0], block);
      TimesAligned(r, pers[0], block);
      TimesAligned(r + 1, pers[0], block);
      SumAligned(base, Times(tp, pers[0]), block);
      SumAligned(base, Times(r, pers[0]), block);
      SumAligned(base, Times(r + 1, pers[0]), block);
      RowRangesAligned(tp, pers[1..], r, next, block);
      hide Times;
      forall k | 0 <= k < |pers| ensures rr[k].0 % block == 0 && rr[k].1 % block == 0 {
        if k > 0 { assert rr[k] == rest[k - 1]; }
      }
    }
  }

  lemma SumAligned(a: nat, b: nat, block: nat)
    requires block > 0 && a % block == 0 && b % block == 0
    ensures (a + b) % block == 0 && (a + b) / block == a / block + b / block
  {
    assert b == (b / block) * block;
    Modular.AddMultiple(a, b / block, block);
  }

  lemma TimesAligned(r: nat, per: nat, block: nat)
    requires block > 0 && per % block == 0
    ensures Times(r, per) % block == 0 && Times(r, per) / block == Times(r, per / block)
  {
    assert per == (per / block) * block;
    assert r * ((per / block) * block) == (r * (per / block)) * block;
    Modular.MultipleMod(r * (per / block), block);
  }

  /** The (weight, scale) pair of rank r. */
  function ShardPair(tp: nat, block: nat, experts: nat, p: Plan, w: Tensor<int>, s: Tensor<real>, r: nat)
    : Result<(Option<Tensor<int>>, Option<Tensor<real>>), ShardError>
    requires tp > 0 && block > 0 && PlanOk(p) && r < tp && (p.kind.ByExpert? ==> experts / tp > 0)
  {
    var ws, ss := Shard(tp, experts, p, w), ShardScale(tp, block, p, s);
    if ws.Err? then Err(ws.error)
    else if ss.Err? then Err(ss.error)
    else
      ShardCount(tp, experts, p, w);
      ScaleCount(tp, block, p, s);
      Ok((ws.value[r], if ws.value[r].None? then None else Some(ss.value[r])))
  }

  lemma ShardCount<T>(tp: nat, experts: nat, p: Plan, t: Tensor<T>)
    requires tp > 0 && PlanOk(p) && (p.kind.ByExpert? ==> experts / tp > 0)
    ensures Shard(tp, experts, p, t).Ok? ==> |Shard(tp, experts, p, t).value| == tp
  {
  }

  lemma ScaleCount(tp: nat, block: nat, p: Plan, s: Tensor<real>)
    requires tp > 0 && block > 0 && PlanOk(p)
    ensures ShardScale(tp, block, p, s).Ok? ==> |ShardScale(tp, block, p, s).value| == tp
  {
  }

  /**
   * For an accepted split tensor, the rank's ranges are those of the plan, inside the tensor, and a
   * block grid can follow them.
   */
  lemma AcceptedRanges(tp: nat, block: nat, p: Plan, w: Tensor<int>, s: Tensor<real>, r: nat)
    requires tp > 0 && block > 0 && PlanOk(p) && r < tp && (p.kind.SplitOut? || p.kind.SplitIn?)
    requires ValidateTensor(tp, block, p, |w.rows|, w.cols, true).None? && ShardScale(tp, block, p, s).Ok?
    ensures Splits(tp, p.segments)
    ensures RankRanges(tp, p, |w.rows|, w.cols) == RankRowRanges(tp, p.segments)
    ensures RankRowRanges(tp, p.segments).Ok? && |RankRowRanges(tp, p.segments).value| == tp
    ensures var rr := RowRanges(tp, Pers(tp, p.segments), r, 0);
      && RankRowRanges(tp, p.segments).value[r] == rr && Sliceable(rr, block)
      && Within(rr, if p.kind.SplitOut? then |w.rows| else w.cols)
  {
    NoErrorSplits(tp, p.segments);
    var ranges := RankRowRanges(tp, p.segments);
    var rr := RowRanges(tp, Pers(tp, p.segments), r, 0);
    RanksErrorIff(ranges.value, block);
    RowRangesWithin(tp, Pers(tp, p.segments), r, 0);
    SpanIsTotal(tp, p.segments);
    if |p.segments| > 1 {
      RowRangesAligned(tp, Pers(tp, p.segments), r, 0, block);
    }
    assert p.kind.SplitIn? ==> Total(p.segments) == w.cols by {
      if p.kind.SplitIn? { assert Total(p.segments) == p.segments[0].size.value + Total(p.segments[1..]); }
    }
    assert ranges.value[r] == rr;
  }

  /** For every rank: dequantizing its shard with its scale shard is its shard of the dequantized tensor. */
  lemma ShardThenDequant(tp: nat, block: nat, experts: nat, p: Plan, decode: int -> real, w: Tensor<int>,
                         s: Tensor<real>, r: nat)
    requires tp > 0 && block > 0 && PlanOk(p) && r < tp && !p.kind.ByExpert? && w.Valid() && s.Valid()
    requires ValidateTensor(tp, block, p, |w.rows|, w.cols, true).None?
    requires ShardPair(tp, block, experts, p, w, s, r).Ok?
    requires Dequant(decode, w, s, block, block).Ok?
    ensures var (w', s') := ShardPair(tp, block, experts, p, w, s, r).value;
      var full := Shard(tp, experts, p, Dequant(decode, w, s, block, block).value);
      && w'.Some? && s'.Some? && w'.value.Valid() && s'.value.Valid()
      && full.Ok? && |full.value| == tp && full.value[r].Some?
      && Dequant(decode, w'.value, s'.value, block, block) == Ok(full.value[r].value)
  {
    hide Dequant, Cut, Sliceable, RowRanges, ValidateTensor, BlockRanges, CeilDiv;
    if !p.kind.Replicated? {
      AcceptedRanges(tp, block, p, w, s, r);
      DequantByRow(decode, w, s, block, block);
      var rr := RowRanges(tp, Pers(tp, p.segments), r, 0);
      hide RankRowRanges;
      if p.kind.SplitOut? {
        DequantCutRows(decode, w, s, block, rr);
      } else {
        DequantCutCols(decode, w, s, block, rr);
      }
    }
  }

  // ---------------------------------------------------------------------------
  // One rank's view
  // ---------------------------------------------------------------------------

  predicate Owns(tp: nat, experts: nat, p: Plan, rank: nat)
    requires tp > 0 && (p.kind.ByExpert? ==> experts / tp > 0)
  {
    p.kind.ByExpert? ==> Owner(experts, tp, p.expert) == rank
  }

  function PlanSlice<T>(tp: nat, experts: nat, p: Plan, t: Tensor<T>, rank: nat): Result<Tensor<T>, ShardError>
    requires tp > 0 && PlanOk(p) && rank < tp && (p.kind.ByExpert? ==> experts / tp > 0)
  {
    if p.kind.Replicated? then Ok(t)
    else if p.kind.ByExpert? then (if Owns(tp, experts, p, rank) then Ok(t) else Err(NotOwned))
    else
      ShardCount(tp, experts, p, t);
      var ts := Shard(tp, experts, p, t);
      if ts.Err? then Err(ts.error) else Ok(ts.value[rank].value)
  }

  /** The scale grid has exactly the blocks of the weight. */
  predicate GridFits(w: Tensor<int>, s: Tensor<real>, block: nat)
    requires block > 0
  {
    |s.rows| == CeilDiv(|w.rows|, block) && s.cols == CeilDiv(w.cols, block)
  }

  /** The rank's dequantized slice; a split tensor is sharded first and never dequantized whole. */
  function RankDequant(tp: nat, block: nat, experts: nat, p: Plan, decode: int -> real, w: Tensor<int>, s: Tensor<real>,
                       rank: nat)
    : Result<Tensor<real>, ShardError>
    requires tp > 0 && block > 0 && PlanOk(p) && rank < tp && (p.kind.ByExpert? ==> experts / tp > 0)
    requires w.Valid() && s.Valid() && GridFits(w, s, block)
  {
    if !Owns(tp, experts, p, rank) then Err(NotOwned)
    else if p.kind.Replicated? || p.kind.ByExpert? then Dequant(decode, w, s, block, block)
    else if ValidateTensor(tp, block, p, |w.rows|, w.cols, true).Some?
      then Err(ValidateTensor(tp, block, p, |w.rows|, w.cols, true).value)
    else
      var pair := ShardPair(tp, block, experts, p, w, s, rank);
      if pair.Err? then Err(pair.error)
      else
        DequantSome(decode, w, s, block);
        ShardThenDequant(tp, block, experts, p, decode, w, s, rank);
        Dequant(decode, pair.value.0.value, pair.value.1.value, block, block)
  }

  /** A segment of known size that every rank gets an equal, non-empty share of, in whole units. */
  predicate Shares(tp: nat, s: Segment)
    requires tp > 0 && s.unit > 0
  {
    s.size.Some? && s.size.value % tp == 0 && (s.size.value / tp) % s.unit == 0 && s.size.value / tp > 0
  }

  /** A block grid can follow equal shares: whole blocks, whole shares in a block, or everything in one block. */
  predicate GridFollows(tp: nat, per: nat, block: nat)
    requires block > 0
  {
    tp == 1 || per % block == 0 || (per > 0 && block % per == 0) || Times(tp, per) <= block
  }

  /** Whether the tensor can be split, from the plan's sizes, the tensor's shape and the block. */
  predicate SizesUsable(tp: nat, block: nat, p: Plan, w: Tensor<int>)
    requires tp > 0 && block > 0 && PlanOk(p)
  {
    p.kind.Replicated? || p.kind.ByExpert?
    || (&& (forall i :: 0 <= i < |p.segments| ==> Shares(tp, p.segments[i]))
        && Total(p.segments) == (if p.kind.SplitOut? then |w.rows| else w.cols)
        && if |p.segments| == 1 then GridFollows(tp, p.segments[0].size.value / tp, block)
           else forall i :: 0 <= i < |p.segments| ==>
             p.segments[i].size.value % block == 0 && (p.segments[i].size.value / tp) % block == 0)
  }

  /** Shares inside one block each, because whole shares fill a block. */
  lemma SharesFillBlock(per: nat, block: nat, r: nat)
    requires block > 0 && per > 0 && block % per == 0
    ensures (Times(r + 1, per) - 1) / block == Times(r, per) / block
  {
    var q := block / per;
    assert block == q * per;
    assert q > 0;
    var k, m := r / q, r % q;
    FillSteps(per, q, k, m);
    Modular.DivModUnique(Times(r, per), block, k, m * per);
    Modular.DivModUnique(Times(r + 1, per) - 1, block, k, m * per + per - 1);
  }

  lemma FillSteps(per: nat, q: nat, k: nat, m: nat)
    requires m < q
    ensures Times(k * q + m, per) == k * (q * per) + m * per
    ensures Times(k * q + m + 1, per) == k * (q * per) + m * per + per
    ensures 0 <= m * per && m * per + per <= q * per
  {
    Modular.MulMonotone(m + 1, q, per);
    TimesNext(k * q + m, per);
    assert k * q * per == k * (q * per);
  }

  /** Otherwise some share cuts a block without staying inside it. */
  lemma SomeShareCuts(tp: nat, per: nat, block: nat) returns (r: nat)
    requires block > 0 && per > 0 && !GridFollows(tp, per, block)
    ensures r < tp && !Followable((Times(r, per), Times(r + 1, per)), block)
  {
    if per > block {
      r := 1;
      assert Times(1, per) == per && Times(2, per) == 2 * per;
      Modular.AddMultiple(per, 1, block);
      Modular.DivMonotone(per + block, 2 * per - 1, block);
    } else {
      r := block / per;
      assert block == r * per + block % per;
      TimesNext(r, per);
      if r >= tp { TimesMonotone(tp, r, per); }
      if r == 0 { Modular.DivModUnique(block, per, 0, block); }
      assert 0 < Times(r, per) < block < Times(r + 1, per);
      Modular.DivModUnique(Times(r, per), block, 0, Times(r, per));
      Modular.DivMonotone(block, Times(r + 1, per) - 1, block);
    }
  }

  lemma SharesFollowable(tp: nat, per: nat, block: nat, r: nat)
    requires block > 0 && per > 0 && r < tp && GridFollows(tp, per, block)
    ensures Followable((Times(r, per), Times(r + 1, per)), block)
  {
    TimesNext(r, per);
    if tp == 1 {
      TimesZero(per);
    } else if per % block == 0 {
      TimesAligned(r, per, block);
    } else if block % per == 0 {
      SharesFillBlock(per, block, r);
      hide Times;
    } else {
      InOneBlock(tp, per, block, r);
      hide Times;
    }
  }

  lemma InOneBlock(tp: nat, per: nat, block: nat, r: nat)
    requires block > 0 && per > 0 && r < tp && Times(tp, per) <= block
    ensures Times(r + 1, per) >= 1 && Times(r, per) / block == 0 == (Times(r + 1, per) - 1) / block
  {
    TimesNext(r, per);
    TimesMonotone(r + 1, tp, per);
    hide Times;
    Modular.DivModUnique(Times(r, per), block, 0, Times(r, per));
    Modular.DivModUnique(Times(r + 1, per) - 1, block, 0, Times(r + 1, per) - 1);
  }

  lemma TimesZero(per: nat)
    ensures Times(0, per) == 0
  {
  }

  ghost predicate AllFollow(tp: nat, pers: seq<nat>, block: nat)
    requires block > 0
  {
    forall r: nat, k: nat :: r < tp && k < |pers| ==> Followable(RowRanges(tp, pers, r, 0)[k], block)
  }

  /** One segment: every rank's range can be followed if and only if the shares fit the grid. */
  lemma OneFollows(tp: nat, per: nat, block: nat)
    requires tp > 0 && block > 0
    ensures AllFollow(tp, [per], block) <==> per > 0 && GridFollows(tp, per, block)
  {
    forall r: nat | r < tp ensures RowRanges(tp, [per], r, 0)[0] == (Times(r, per), Times(r + 1, per)) {}
    hide Followable, GridFollows, RowRanges, Times;
    if per == 0 {
      EmptyShare(0, block);
      assert !Followable(RowRanges(tp, [per], 0, 0)[0], block);
    } else if GridFollows(tp, per, block) {
      forall r: nat, k: nat | r < tp && k < |[per]| ensures Followable(RowRanges(tp, [per], r, 0)[k], block) {
        SharesFollowable(tp, per, block, r);
      }
    } else {
      var r := SomeShareCuts(tp, per, block);
      assert !Followable(RowRanges(tp, [per], r, 0)[0], block);
    }
  }

  lemma EmptyShare(r: nat, block: nat)
    requires block > 0
    ensures !Followable((Times(r, 0), Times(r + 1, 0)), block)
  {
  }

  /** Several aligned segments: every rank's ranges can be followed if and only if no share is empty. */
  lemma {:induction false} AlignedFollow(tp: nat, pers: seq<nat>, block: nat)
    requires tp > 0 && block > 0 && AllAligned(pers, block)
    ensures AllFollow(tp, pers, block) <==> forall k :: 0 <= k < |pers| ==> pers[k] > 0
  {
    hide RowRanges;
    if AllFollow(tp, pers, block) {
      RowRangesSize(tp, pers, 0, 0);
      forall k: nat | k < |pers| ensures pers[k] > 0 { assert Followable(RowRanges(tp, pers, 0, 0)[k], block); }
    }
    if forall k :: 0 <= k < |pers| ==> pers[k] > 0 {
      forall r: nat, k: nat | r < tp && k < |pers| ensures Followable(RowRanges(tp, pers, r, 0)[k], block) {
        RowRangesAligned(tp, pers, r, 0, block);
        RowRangesSize(tp, pers, r, 0);
      }
    }
  }

  lemma {:induction false} RowRangesSize(tp: nat, pers: seq<nat>, r: nat, base: nat)
    ensures forall k :: 0 <= k < |pers| ==>
      RowRanges(tp, pers, r, base)[k].1 == RowRanges(tp, pers, r, base)[k].0 + pers[k]
    decreases |pers|
  {
    if pers != [] {
      TimesNext(r, pers[0]);
      RowRangesSize(tp, pers[1..], r, base + Times(tp, pers[0]));
    }
  }

  /** Validation and scale slicing accept a split tensor if and only if its sizes are usable. */
  lemma {:induction false} UsableExactly(tp: nat, block: nat, p: Plan, w: Tensor<int>, s: Tensor<real>)
    requires tp > 0 && block > 0 && PlanOk(p) && (p.kind.SplitOut? || p.kind.SplitIn?)
    ensures ValidateTensor(tp, block, p, |w.rows|, w.cols, true).None? && ShardScale(tp, block, p, s).Ok? <==>
      SizesUsable(tp, block, p, w)
  {
    var segs := p.segments;
    NoErrorSplits(tp, segs);
    hide CutTensor, BlockRanges, GridFollows, CeilDiv, Followable;
    if SegmentsError(tp, segs).None? {
      RangesFollow(tp, block, p, |w.rows|, w.cols);
      var pers := Pers(tp, segs);
      hide ValidateTensor, RankRowRanges, SegmentsError;
      if |segs| == 1 {
        assert pers == [segs[0].size.value / tp];
        OneFollows(tp, pers[0], block);
      } else if SegmentsAligned(tp, segs, block) {
        forall i | 0 <= i < |pers| ensures pers[i] % block == 0 { assert segs[i].size.Some?; }
        AlignedFollow(tp, pers, block);
        hide AllFollow;
        assert forall i :: 0 <= i < |segs| ==> pers[i] == segs[i].size.value / tp;
      }
    }
  }

  /**
   * Once every segment splits, validation accepts if and only if the axis is covered and every
   * range can be followed.
   */
  lemma {:induction false} RangesFollow(tp: nat, block: nat, p: Plan, rows: nat, cols: nat)
    requires tp > 0 && block > 0 && PlanOk(p) && (p.kind.SplitOut? || p.kind.SplitIn?) &&
      SegmentsError(tp, p.segments).None?
    ensures Splits(tp, p.segments)
    ensures ValidateTensor(tp, block, p, rows, cols, true).None? <==>
      Total(p.segments) == (if p.kind.SplitOut? then rows else cols) && AllFollow(tp, Pers(tp, p.segments), block)
  {
    NoErrorSplits(tp, p.segments);
    var pers, rrs := Pers(tp, p.segments), RankRowRanges(tp, p.segments).value;
    RanksErrorIff(rrs, block);
    assert p.segments[0].size.Some?;
    assert p.kind.SplitIn? ==> Total(p.segments) == p.segments[0].size.value + Total(p.segments[1..]);
    hide Followable, RowRanges, RanksError;
    if AllFollow(tp, pers, block) {
      forall r, k | 0 <= r < |rrs| && 0 <= k < |rrs[r]| ensures Followable(rrs[r][k], block) {
        assert rrs[r] == RowRanges(tp, pers, r, 0);
      }
    } else {
      var r: nat, k: nat :| r < tp && k < |pers| && !Followable(RowRanges(tp, pers, r, 0)[k], block);
      assert rrs[r] == RowRanges(tp, pers, r, 0);
      assert !Followable(rrs[r][k], block);
    }
  }

  /** A rank gets its slice of the dequantized tensor exactly when it owns the tensor and its sizes are usable. */
  lemma RankDequantIsSlice(tp: nat, block: nat, experts: nat, p: Plan, decode: int -> real, w: Tensor<int>,
                           s: Tensor<real>, rank: nat)
    requires tp > 0 && block > 0 && PlanOk(p) && rank < tp && (p.kind.ByExpert? ==> experts / tp > 0)
    requires w.Valid() && s.Valid() && GridFits(w, s, block)
    ensures Dequant(decode, w, s, block, block).Ok?
    ensures var mine := RankDequant(tp, block, experts, p, decode, w, s, rank);
      && (mine.Ok? <==> Owns(tp, experts, p, rank) && SizesUsable(tp, block, p, w))
      && (mine.Ok? ==> mine == PlanSlice(tp, experts, p, Dequant(decode, w, s, block, block).value, rank))
  {
    DequantSome(decode, w, s, block);
    hide Dequant, CutTensor, ValidateTensor, CeilDiv, RankRanges, RankRowRanges, GridFollows;
    if p.kind.SplitOut? || p.kind.SplitIn? {
      UsableExactly(tp, block, p, w, s);
      hide SizesUsable;
      if ValidateTensor(tp, block, p, |w.rows|, w.cols, true).None? {
        if ShardScale(tp, block, p, s).Ok? {
          AcceptedRanges(tp, block, p, w, s, rank);
          ShardThenDequant(tp, block, experts, p, decode, w, s, rank);
        }
      }
    }
  }

  /** A tensor that is not split goes whole to every rank, or only to the rank whose run holds its expert. */
  lemma UnsplitShards<T>(tp: nat, experts: nat, p: Plan, t: Tensor<T>, block: nat, rows: nat, cols: nat,
                         quantized: bool,
                         r: nat)
    requires tp > 0 && block > 0 && PlanOk(p) && (p.kind.Replicated? || p.kind.ByExpert?) && r < tp
    requires p.kind.ByExpert? ==> experts % tp == 0 && p.expert < experts
    ensures p.kind.ByExpert? ==> experts / tp > 0
    ensures Shard(tp, experts, p, t).Ok? && |Shard(tp, experts, p, t).value| == tp
    ensures Shard(tp, experts, p, t).value[r].Some? <==> Owns(tp, experts, p, r)
    ensures Shard(tp, experts, p, t).value[r] ==
      if p.kind.ByExpert? && !(Times(r, experts / tp) <= p.expert < Times(r + 1, experts / tp)) then None else Some(t)
    ensures ValidateTensor(tp, block, p, rows, cols, quantized).None?
  {
    if p.kind.ByExpert? { OwnerPartition(experts, tp, p.expert, r); }
  }

  /** Every expert belongs to exactly one rank, and each rank gets a run of equal length. */
  lemma OwnerPartition(experts: nat, tp: nat, e: nat, r: nat)
    requires tp > 0 && experts % tp == 0 && e < experts && r < tp
    ensures experts / tp > 0 && Owner(experts, tp, e) < tp
    ensures Owner(experts, tp, e) == r <==> Times(r, experts / tp) <= e < Times(r + 1, experts / tp)
  {
    var per := experts / tp;
    assert experts == per * tp;
    assert per > 0;
    var o := e / per;
    assert e == o * per + e % per;
    TimesAll(tp, experts);
    if o >= tp { TimesMonotone(tp, o, per); }
    TimesNext(r, per);
    TimesNext(o, per);
    if r < o { TimesMonotone(r + 1, o, per); }
    if o < r { TimesMonotone(o + 1, r, per); }
  }

  /** Every plan of an accepted configuration splits on whole heads; only the vocabulary can still be refused. */
  lemma PlansSplit(c: Config, tp: nat, name: Name)
    requires Accepted(c, tp)
    ensures PlanOk(PlanFor(c, name))
    ensures !name.Vocab? ==> SegmentsError(tp, PlanFor(c, name).segments).None?
  {
    HeadsSplit(c.attnHeads, 2 * c.attnHeadDim, tp);
    HeadsSplit(c.attnHeads, c.attnHeadDim, tp);
    HeadsSplit(c.attnKvHeads, c.attnHeadDim, tp);
    HeadsSplit(c.linKHeads, c.linKDim, tp);
    HeadsSplit(c.linVHeads, c.linVDim, tp);
    var segs := PlanFor(c, name).segments;
    if !name.Vocab? {
      assert forall i :: 0 <= i < |segs| ==> SegmentError(tp, segs[i]).None?;
      NoErrorSplits(tp, segs);
    }
  }

  /** The rows of rank r's heads, of `heads` heads of `dim` rows each that start at `base`. */
  function HeadRows(base: nat, heads: nat, dim: nat, tp: nat, r: nat): Range
    requires tp > 0
  {
    (base + r * (heads / tp) * dim, base + (r + 1) * (heads / tp) * dim)
  }

  /** What each rank gets of a tensor: its share of the query, key and value heads, and the same heads of every part. */
  ghost predicate GetsHeads(c: Config, tp: nat, name: Name, r: nat, rr: seq<Range>)
    requires tp > 0
  {
    var keys := c.linKHeads * c.linKDim;
    match name
    case Query => rr == [HeadRows(0, c.attnHeads, 2 * c.attnHeadDim, tp, r)]
    case KeyValue => rr == [HeadRows(0, c.attnKvHeads, c.attnHeadDim, tp, r)]
    case AttnOut => rr == [HeadRows(0, c.attnHeads, c.attnHeadDim, tp, r)]
    case GdnQkv =>
      rr == [HeadRows(0, c.linKHeads, c.linKDim, tp, r), HeadRows(keys, c.linKHeads, c.linKDim, tp, r),
             HeadRows(keys + keys, c.linVHeads, c.linVDim, tp, r)]
    case GdnGate => rr == [HeadRows(0, c.linVHeads, c.linVDim, tp, r)]
    case GdnPerHead => rr == [HeadRows(0, c.linVHeads, 1, tp, r)]
    case GdnOut => rr == [HeadRows(0, c.linVHeads, c.linVDim, tp, r)]
    case _ => false
  }

  lemma HeadShare(base: nat, heads: nat, dim: nat, tp: nat, r: nat)
    requires tp > 0 && dim > 0 && heads % tp == 0
    ensures (heads * dim) % tp == 0 && Times(tp, (heads * dim) / tp) == heads * dim
    ensures RankRange(base, (heads * dim) / tp, r) == HeadRows(base, heads, dim, tp, r)
  {
    var q := heads / tp;
    HeadsSplit(heads, dim, tp);
    TimesAll(tp, heads * dim);
    HeadsPer(q, dim, tp);
    assert heads == q * tp;
    Associate(r, q, dim);
    Associate(r + 1, q, dim);
  }

  lemma HeadsPer(q: nat, dim: nat, tp: nat)
    requires tp > 0
    ensures ((q * tp) * dim) / tp == q * dim
  {
    assert (q * tp) * dim == (q * dim) * tp;
    Modular.MultipleMod(q * dim, tp);
  }

  lemma Associate(a: nat, b: nat, c: nat)
    ensures a * b * c == Times(a, b * c)
  {
  }

  /** Output projections are split by columns, inputs by rows; every rank gets whole heads, the same of each part. */
  lemma RankHeads(c: Config, tp: nat, name: Name, r: nat)
    requires Accepted(c, tp) && r < tp && !name.Vocab? && !name.Expert? && !name.Other?
    ensures PlanOk(PlanFor(c, name)) && RankRowRanges(tp, PlanFor(c, name).segments).Ok?
    ensures PlanFor(c, name).kind == if name.AttnOut? || name.GdnOut? then SplitIn else SplitOut
    ensures GetsHeads(c, tp, name, r, RankRowRanges(tp, PlanFor(c, name).segments).value[r])
  {
    PlansSplit(c, tp, name);
    var segs := PlanFor(c, name).segments;
    NoErrorSplits(tp, segs);
    var pers := Pers(tp, segs);
    hide HeadRows, Times;
    var keys := c.linKHeads * c.linKDim;
    HeadShare(0, c.attnHeads, 2 * c.attnHeadDim, tp, r);
    HeadShare(0, c.attnKvHeads, c.attnHeadDim, tp, r);
    HeadShare(0, c.attnHeads, c.attnHeadDim, tp, r);
    HeadShare(0, c.linKHeads, c.linKDim, tp, r);
    HeadShare(keys, c.linKHeads, c.linKDim, tp, r);
    HeadShare(keys + keys, c.linVHeads, c.linVDim, tp, r);
    HeadShare(0, c.linVHeads, c.linVDim, tp, r);
    HeadShare(0, c.linVHeads, 1, tp, r);
    RangesList(tp, pers, r);
  }

  /** The vocabulary is split evenly by rows, whatever its size, when it can be. */
  lemma VocabRanges(c: Config, tp: nat, rows: nat, cols: nat, r: nat)
    requires r < tp
    ensures var p := PlanFor(c, Vocab);
      && PlanOk(p) && p.kind == SplitOut
      && if rows % tp == 0 then RankRanges(tp, p, rows, cols).Ok? && |RankRanges(tp, p, rows, cols).value| == tp &&
           RankRanges(tp, p, rows, cols).value[r] == [(r * (rows / tp), (r + 1) * (rows / tp))]
         else RankRanges(tp, p, rows, cols) == Err(NotDivisible)
  {
    NoErrorSplits(tp, [Segment(Some(rows), 1)]);
    if rows % tp == 0 { RangesList(tp, [rows / tp], r); }
  }

  lemma RangesList(tp: nat, pers: seq<nat>, r: nat)
    ensures |pers| == 1 ==> RowRanges(tp, pers, r, 0) == [RankRange(0, pers[0], r)]
    ensures |pers| == 3 ==>
      RowRanges(tp, pers, r, 0) ==
        [RankRange(0, pers[0], r), RankRange(Times(tp, pers[0]), pers[1], r),
         RankRange(Times(tp, pers[0]) + Times(tp, pers[1]), pers[2], r)]
  {
    hide RankRange, Times;
    if |pers| == 3 {
      var first, second := Times(tp, pers[0]), Times(tp, pers[0]) + Times(tp, pers[1]);
      var b, c := [pers[1], pers[2]], [pers[2]];
      assert pers[1..] == b && b[1..] == c && c[1..] == [];
      assert RowRanges(tp, c, r, second) == [RankRange(second, pers[2], r)];
      assert RowRanges(tp, b, r, first) == [RankRange(first, pers[1], r)] + RowRanges(tp, c, r, second);
      assert RowRanges(tp, pers, r, 0) == [RankRange(0, pers[0], r)] + RowRanges(tp, b, r, first);
    }
  }

  lemma HeadsSplit(heads: nat, dim: nat, tp: nat)
    requires tp > 0 && dim > 0 && heads % tp == 0
    ensures (heads * dim) % tp == 0 && ((heads * dim) / tp) % dim == 0
  {
    var q := heads / tp;
    assert heads == q * tp;
    assert (q * tp) * dim == (q * dim) * tp;
    Modular.MultipleMod(q * dim, tp);
    Modular.MultipleMod(q, dim);
  }
}
