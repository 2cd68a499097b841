/**
 * Sparse attention selection: the best blocks by score, expanded to tokens, followed by
 * the open block's tail. Block scores and block compression are parameters.
 */
module Qsa {
  import opened Prelude
  import Modular

  // ---------------------------------------------------------------------------
  // Stable argsort
  // ---------------------------------------------------------------------------

  /** Insert index i after every index whose key is not larger. */
  function InsertIndex(keys: seq<real>, perm: seq<nat>, i: nat): (r: seq<nat>)
    requires i < |keys| && forall a :: 0 <= a < |perm| ==> perm[a] < |keys|
    ensures |r| == |perm| + 1 && forall a :: 0 <= a < |r| ==> r[a] < |keys|
  {
    if perm == [] || keys[perm[|perm| - 1]] <= keys[i] then perm + [i]
    else InsertIndex(keys, perm[..|perm| - 1], i) + [perm[|perm| - 1]]
  }

  function ArgsortUpTo(keys: seq<real>, n: nat): (perm: seq<nat>)
    requires n <= |keys|
    ensures |perm| == n && forall a :: 0 <= a < n ==> perm[a] < |keys|
  {
    if n == 0 then [] else InsertIndex(keys, ArgsortUpTo(keys, n - 1), n - 1)
  }

  function Argsort(keys: seq<real>): (perm: seq<nat>)
    ensures |perm| == |keys| && forall a :: 0 <= a < |perm| ==> perm[a] < |keys|
  {
    ArgsortUpTo(keys, |keys|)
  }

  /** Index i comes strictly before j: smaller key, or equal keys and smaller index. */
  predicate Before(keys: seq<real>, i: nat, j: nat)
    requires i < |keys| && j < |keys|
  {
    keys[i] < keys[j] || (keys[i] == keys[j] && i < j)
  }

  ghost predicate StableSorted(keys: seq<real>, perm: seq<nat>)
    requires forall a :: 0 <= a < |perm| ==> perm[a] < |keys|
  {
    forall a, b :: 0 <= a < b < |perm| ==> Before(keys, perm[a], perm[b])
  }

  lemma {:induction false} InsertMembers(keys: seq<real>, perm: seq<nat>, i: nat, x: nat)
    requires i < |keys| && forall a :: 0 <= a < |perm| ==> perm[a] < |keys|
    ensures x in InsertIndex(keys, perm, i) <==> x in perm || x == i
    decreases |perm|
  {
    if perm != [] && keys[perm[|perm| - 1]] > keys[i] {
      InsertMembers(keys, perm[..|perm| - 1], i, x);
      assert perm == perm[..|perm| - 1] + [perm[|perm| - 1]];
    }
  }

  lemma SortedSnoc(keys: seq<real>, perm: seq<nat>, j: nat)
    requires j < |keys| && (forall a :: 0 <= a < |perm| ==> perm[a] < |keys|) && StableSorted(keys, perm)
    requires forall a :: 0 <= a < |perm| ==> Before(keys, perm[a], j)
    ensures StableSorted(keys, perm + [j])
  {
  }

  lemma {:induction false} InsertSorted(keys: seq<real>, perm: seq<nat>, i: nat)
    requires i < |keys| && (forall a :: 0 <= a < |perm| ==> perm[a] < i) && StableSorted(keys, perm)
    ensures StableSorted(keys, InsertIndex(keys, perm, i))
    decreases |perm|
  {
    if perm != [] {
      var last := |perm| - 1;
      var rest, j := perm[..last], perm[last];
      assert forall a :: 0 <= a < last ==> Before(keys, perm[a], j);
      if keys[j] <= keys[i] {
        SortedSnoc(keys, perm, i);
      } else {
        InsertSorted(keys, rest, i);
        var r := InsertIndex(keys, rest, i);
        forall a | 0 <= a < |r| ensures Before(keys, r[a], j) {
          InsertMembers(keys, rest, i, r[a]);
          assert r[a] in r;
        }
        hide InsertIndex, Before, StableSorted;
        SortedSnoc(keys, r, j);
        InsertStep(keys, perm, i);
      }
    }
  }

  lemma InsertStep(keys: seq<real>, perm: seq<nat>, i: nat)
    requires i < |keys| && (forall a :: 0 <= a < |perm| ==> perm[a] < |keys|)
    requires perm != [] && keys[perm[|perm| - 1]] > keys[i]
    ensures InsertIndex(keys, perm, i) == InsertIndex(keys, perm[..|perm| - 1], i) + [perm[|perm| - 1]]
  {
  }

  /** The argsort is the stable sorting permutation of all indices. */
  lemma {:induction false} ArgsortUpToSorts(keys: seq<real>, n: nat)
    requires n <= |keys|
    ensures StableSorted(keys, ArgsortUpTo(keys, n))
    ensures forall i: nat :: i in ArgsortUpTo(keys, n) <==> i < n
  {
    if n > 0 {
      hide StableSorted, InsertIndex, Before;
      ArgsortUpToSorts(keys, n - 1);
      var before := ArgsortUpTo(keys, n - 1);
      assert forall a :: 0 <= a < |before| ==> before[a] in before;
      InsertSorted(keys, before, n - 1);
      forall i: nat ensures i in ArgsortUpTo(keys, n) <==> i < n {
        InsertMembers(keys, before, n - 1, i);
      }
    }
  }

  lemma ArgsortSorts(keys: seq<real>)
    ensures StableSorted(keys, Argsort(keys))
    ensures forall i: nat :: i < |keys| ==> i in Argsort(keys)
  {
    ArgsortUpToSorts(keys, |keys|);
  }

  // ---------------------------------------------------------------------------
  // Top blocks
  // ---------------------------------------------------------------------------

  function Min(a: nat, b: nat): nat { if a < b then a else b }

  function Padding(n: nat): seq<int> { seq(n, i => -1) }

  function Negated(row: seq<real>): (r: seq<real>)
    ensures |r| == |row|
  {
    seq(|row|, i requires 0 <= i < |row| => -row[i])
  }

  function AsInts(s: seq<nat>): (r: seq<int>)
    ensures |r| == |s|
  {
    seq(|s|, i requires 0 <= i < |s| => s[i])
  }

  /** The best `topk` columns of a row, best first; equal scores keep their order. */
  function Best(row: seq<real>, topk: nat): (sel: seq<nat>)
    ensures |sel| == Min(|row|, topk) && forall a :: 0 <= a < |sel| ==> sel[a] < |row|
  {
    Argsort(Negated(row))[..Min(|row|, topk)]
  }

  function TopkRow(row: seq<real>, topk: nat): (out: seq<int>)
    ensures |out| == topk
  {
    AsInts(Best(row, topk)) + Padding(topk - Min(|row|, topk))
  }

  /** The columns of row r that take part. */
  function Columns(logits: seq<seq<real>>, starts: seq<nat>, ends: seq<nat>, r: nat): seq<real>
    requires r < |logits| == |starts| == |ends| && ends[r] <= |logits[r]|
  {
    if starts[r] <= ends[r] then logits[r][starts[r]..ends[r]] else []
  }

  ghost predicate Fits(logits: seq<seq<real>>, starts: seq<nat>, ends: seq<nat>) {
    |starts| == |ends| == |logits| && forall r :: 0 <= r < |logits| ==> ends[r] <= |logits[r]|
  }

  ghost predicate RowDone(logits: seq<seq<real>>, starts: seq<nat>, ends: seq<nat>, topk: nat, r: nat, out: seq<int>) {
    && r < |logits| == |starts| == |ends| && ends[r] <= |logits[r]|
    && out == TopkRow(Columns(logits, starts, ends, r), topk)
  }

  /** The first r rows are filled, the others are padding. */
  ghost predicate Filled(logits: seq<seq<real>>, starts: seq<nat>, ends: seq<nat>, topk: nat, r: nat,
                         out: seq<seq<int>>) {
    && |out| == |logits|
    && (forall q :: 0 <= q < |out| ==> if q < r then RowDone(logits, starts, ends, topk, q, out[q])
        else out[q] == Padding(topk))
  }

  lemma FilledNext(logits: seq<seq<real>>, starts: seq<nat>, ends: seq<nat>, topk: nat, r: nat, out: seq<seq<int>>,
                   row: seq<int>)
    requires Filled(logits, starts, ends, topk, r, out) && r < |logits| && RowDone(logits, starts, ends, topk, r, row)
    ensures Filled(logits, starts, ends, topk, r + 1, out[r := row])
  {
    hide RowDone;
  }

  lemma NoColumns(topk: nat)
    ensures TopkRow([], topk) == Padding(topk)
  {
    assert AsInts(Best([], topk)) == [];
  }

  lemma FillRow(row: seq<real>, topk: nat)
    ensures AsInts(Argsort(Negated(row))[..Min(|row|, topk)]) + Padding(topk)[Min(|row|, topk)..] == TopkRow(row, topk)
  {
    assert Padding(topk)[Min(|row|, topk)..] == Padding(topk - Min(|row|, topk));
  }

  /** Row by row, over the columns starts[r] .. ends[r]; rows without columns stay padding. */
  method FastTopk(logits: seq<seq<real>>, starts: seq<nat>, ends: seq<nat>, topk: nat) returns (out: seq<seq<int>>)
    requires Fits(logits, starts, ends)
    ensures |out| == |logits|
    ensures forall r :: 0 <= r < |out| ==> RowDone(logits, starts, ends, topk, r, out[r])
  {
    out := seq(|logits|, r => Padding(topk));
    hide RowDone, TopkRow, AsInts, Argsort;
    for r := 0 to |logits|
      invariant Filled(logits, starts, ends, topk, r, out)
    {
      var s, length := starts[r], ends[r] as int - starts[r];
      var width := if length < topk then length else topk;
      var row := out[r];
      if width > 0 {
        var scores := logits[r][s..s + length];
        row := AsInts(Argsort(Negated(scores))[..width]) + row[width..];
        WidthFilled(logits, starts, ends, topk, r);
      } else {
        NothingToFill(logits, starts, ends, topk, r);
        assert out[r] == Padding(topk);
      }
      FilledNext(logits, starts, ends, topk, r, out, row);
      out := out[r := row];
    }
  }

  lemma WidthFilled(logits: seq<seq<real>>, starts: seq<nat>, ends: seq<nat>, topk: nat, r: nat)
    requires r < |logits| == |starts| == |ends| && starts[r] <= ends[r] <= |logits[r]|
    ensures var scores := logits[r][starts[r]..ends[r]];
      RowDone(logits, starts, ends, topk, r, AsInts(Argsort(Negated(scores))[..Min(|scores|, topk)]) +
          Padding(topk)[Min(|scores|, topk)..])
  {
    FillRow(logits[r][starts[r]..ends[r]], topk);
  }

  lemma NothingToFill(logits: seq<seq<real>>, starts: seq<nat>, ends: seq<nat>, topk: nat, r: nat)
    requires r < |logits| == |starts| == |ends| && ends[r] <= |logits[r]| && (ends[r] <= starts[r] || topk == 0)
    ensures RowDone(logits, starts, ends, topk, r, Padding(topk))
  {
    if ends[r] <= starts[r] {
      assert Columns(logits, starts, ends, r) == [];
      NoColumns(topk);
    } else {
      assert AsInts(Best(Columns(logits, starts, ends, r), 0)) == [];
    }
  }

  /** The selected blocks are distinct, and no block left out scores higher than a selected one. */
  lemma BestIsBest(row: seq<real>, topk: nat)
    ensures var sel := Best(row, topk);
      && (forall a, b :: 0 <= a < b < |sel| ==> sel[a] != sel[b])
      && (forall a, b: nat :: 0 <= a < |sel| && b < |row| && b !in sel ==> row[b] <= row[sel[a]])
      && (|row| <= topk ==> forall b: nat :: b < |row| ==> b in sel)
  {
    var keys := Negated(row);
    var order, sel := Argsort(keys), Best(row, topk);
    ArgsortSorts(keys);
    forall a, b | 0 <= a < b < |sel| ensures sel[a] != sel[b] {
      assert Before(keys, order[a], order[b]);
    }
    assert forall j :: 0 <= j < |sel| ==> order[j] in sel;
    forall a, b: nat | 0 <= a < |sel| && b < |row| && b !in sel ensures row[b] <= row[sel[a]] {
      assert b in order;
      var k :| 0 <= k < |order| && order[k] == b;
      assert Before(keys, order[a], order[k]);
    }
    if |row| <= topk {
      assert sel == order;
    }
  }

  // ---------------------------------------------------------------------------
  // Expansion and compaction
  // ---------------------------------------------------------------------------

  function Live(s: seq<int>): seq<int> {
    if s == [] then []
    else Live(s[..|s| - 1]) + if s[|s| - 1] >= 0 then [s[|s| - 1]] else []
  }

  lemma {:induction false} LiveAppend(a: seq<int>, b: seq<int>)
    ensures Live(a + b) == Live(a) + Live(b)
    decreases |b|
  {
    if b == [] {
      assert a + b == a;
    } else {
      var last := |b| - 1;
      LiveAppend(a, b[..last]);
      assert (a + b)[..|a + b| - 1] == a + b[..last];
    }
  }

  function LiveIndices(s: seq<int>, n: nat): (idx: seq<nat>)
    requires n <= |s|
    ensures forall a :: 0 <= a < |idx| ==> idx[a] < n && s[idx[a]] >= 0
  {
    if n == 0 then [] else LiveIndices(s, n - 1) + if s[n - 1] >= 0 then [n - 1] else []
  }

  function DeadIndices(s: seq<int>, n: nat): (idx: seq<nat>)
    requires n <= |s|
    ensures forall a :: 0 <= a < |idx| ==> idx[a] < n && s[idx[a]] < 0
  {
    if n == 0 then [] else DeadIndices(s, n - 1) + if s[n - 1] < 0 then [n - 1] else []
  }

  /** Position of a valid entry, position plus length of an invalid one. */
  function SortKeys(s: seq<int>): (keys: seq<real>)
    ensures |keys| == |s|
  {
    seq(|s|, i requires 0 <= i < |s| => if s[i] >= 0 then i as real else (i + |s|) as real)
  }

  function Compact(s: seq<int>): (r: seq<int>)
    ensures |r| == |s|
  {
    var perm := Argsort(SortKeys(s));
    seq(|s|, k requires 0 <= k < |s| => s[perm[k]])
  }

  lemma {:induction false} InsertBetween(keys: seq<real>, a: seq<nat>, b: seq<nat>, i: nat)
    requires i < |keys|
    requires forall k :: 0 <= k < |a| ==> a[k] < |keys| && keys[a[k]] <= keys[i]
    requires forall k :: 0 <= k < |b| ==> b[k] < |keys| && keys[b[k]] > keys[i]
    ensures InsertIndex(keys, a + b, i) == a + [i] + b
    decreases |b|
  {
    if b == [] {
      assert a + b == a && a + [i] + b == a + [i];
    } else {
      var last := |b| - 1;
      assert (a + b)[..|a + b| - 1] == a + b[..last];
      InsertBetween(keys, a, b[..last], i);
      assert a + [i] + b == (a + [i] + b[..last]) + [b[last]];
    }
  }

  lemma KeysOrdered(s: seq<int>, i: nat)
    requires i < |s|
    ensures var keys := SortKeys(s);
      && (forall k :: 0 <= k < |LiveIndices(s, i)| ==> keys[LiveIndices(s, i)[k]] <= keys[i])
      && (forall k :: 0 <= k < |DeadIndices(s, i)| ==> if s[i] >= 0 then keys[DeadIndices(s, i)[k]] > keys[i]
          else keys[DeadIndices(s, i)[k]] <= keys[i])
  {
    hide LiveIndices, DeadIndices;
  }

  lemma InsertLast(keys: seq<real>, perm: seq<nat>, i: nat)
    requires i < |keys| && forall a :: 0 <= a < |perm| ==> perm[a] < |keys|
    requires |perm| > 0 ==> keys[perm[|perm| - 1]] <= keys[i]
    ensures InsertIndex(keys, perm, i) == perm + [i]
  {
  }

  /** Sorting by those keys lists the valid positions in order, then the invalid ones. */
  lemma {:induction false} SortedKeys(s: seq<int>, n: nat)
    requires n <= |s|
    ensures ArgsortUpTo(SortKeys(s), n) == LiveIndices(s, n) + DeadIndices(s, n)
  {
    if n > 0 {
      hide SortKeys, InsertIndex, ArgsortUpTo, LiveIndices, DeadIndices;
      var i := n - 1;
      SortedKeys(s, i);
      ArgsortStep(SortKeys(s), n);
      IndicesStep(s, n);
      InsertOrdered(s, i);
    }
  }

  lemma InsertOrdered(s: seq<int>, i: nat)
    requires i < |s|
    ensures var live, dead := LiveIndices(s, i), DeadIndices(s, i);
      && (forall a :: 0 <= a < |live + dead| ==> (live + dead)[a] < |SortKeys(s)|)
      && InsertIndex(SortKeys(s), live + dead, i) == (if s[i] >= 0 then live + [i] + dead else live + (dead + [i]))
  {
    hide LiveIndices, DeadIndices, InsertIndex;
    var keys, live, dead := SortKeys(s), LiveIndices(s, i), DeadIndices(s, i);
    KeysOrdered(s, i);
    if s[i] >= 0 {
      InsertBetween(keys, live, dead, i);
    } else {
      var perm := live + dead;
      if |perm| > 0 {
        assert |dead| > 0 ==> perm[|perm| - 1] == dead[|dead| - 1];
        assert |dead| == 0 ==> perm[|perm| - 1] == live[|live| - 1];
      }
      InsertLast(keys, perm, i);
      assert perm + [i] == live + (dead + [i]);
    }
  }

  lemma IndicesStep(s: seq<int>, n: nat)
    requires 0 < n <= |s|
    ensures LiveIndices(s, n) == if s[n - 1] >= 0 then LiveIndices(s, n - 1) + [n - 1] else LiveIndices(s, n - 1)
    ensures DeadIndices(s, n) == if s[n - 1] >= 0 then DeadIndices(s, n - 1) else DeadIndices(s, n - 1) + [n - 1]
  {
  }

  lemma ArgsortStep(keys: seq<real>, n: nat)
    requires 0 < n <= |keys|
    ensures ArgsortUpTo(keys, n) == InsertIndex(keys, ArgsortUpTo(keys, n - 1), n - 1)
  {
  }

  lemma {:induction false} LiveAreLive(s: seq<int>, n: nat)
    requires n <= |s|
    ensures |LiveIndices(s, n)| + |DeadIndices(s, n)| == n
    ensures |Live(s[..n])| == |LiveIndices(s, n)|
    ensures forall k :: 0 <= k < |LiveIndices(s, n)| ==> Live(s[..n])[k] == s[LiveIndices(s, n)[k]]
  {
    if n > 0 {
      LiveAreLive(s, n - 1);
      assert s[..n][..n - 1] == s[..n - 1];
    }
  }

  /** Compaction moves the valid entries to the front, in order, and nothing else. */
  lemma CompactIs(s: seq<int>)
    requires forall i :: 0 <= i < |s| ==> s[i] >= -1
    ensures |Live(s)| <= |s|
    ensures Compact(s) == Live(s) + Padding(|s| - |Live(s)|)
  {
    SortedKeys(s, |s|);
    LiveAreLive(s, |s|);
    assert s[..|s|] == s;
    var live, dead, out := LiveIndices(s, |s|), DeadIndices(s, |s|), Compact(s);
    forall k | 0 <= k < |s| ensures out[k] == (Live(s) + Padding(|s| - |Live(s)|))[k] {
      if k >= |live| { assert (live + dead)[k] == dead[k - |live|]; }
    }
  }

  /** The tokens of a block, or padding. */
  function BlockTokens(b: int, ratio: nat): (r: seq<int>)
    ensures |r| == ratio
  {
    seq(ratio, o => if b >= 0 then b * ratio + o else -1)
  }

  function ExpandBlocks(blocks: seq<int>, ratio: nat): (r: seq<int>)
  {
    if blocks == [] then [] else ExpandBlocks(blocks[..|blocks| - 1], ratio) + BlockTokens(blocks[|blocks| - 1], ratio)
  }

  /** Drop what lies outside the sequence. */
  function Masked(s: seq<int>, seqlen: nat): (r: seq<int>)
    ensures |r| == |s|
  {
    seq(|s|, i requires 0 <= i < |s| => if 0 <= s[i] < seqlen then s[i] else -1)
  }

  /** First token of the block that position q leaves open. */
  function TailStart(q: nat, ratio: nat): nat
    requires ratio >= 1
  {
    ((q + 1) / ratio) * ratio
  }

  function Tail(q: nat, seqlen: nat, ratio: nat): (r: seq<int>)
    requires ratio >= 1
    ensures |r| == ratio - 1
  {
    var start := TailStart(q, ratio);
    seq(ratio - 1, o requires 0 <= o => if o < q + 1 - start && start + o < seqlen then start + o else -1)
  }

  /** One row of token ids: expanded blocks cut to the budget, the tail, compacted. */
  function ExpandRow(blocks: seq<int>, q: nat, seqlen: nat, ratio: nat, budget: nat): (r: seq<int>)
    requires ratio >= 1
  {
    var all := ExpandBlocks(blocks, ratio);
    Compact(Masked(all[..Min(|all|, budget)], seqlen) + Tail(q, seqlen, ratio))
  }

  datatype SelectError = WrongWidth

  /** Expansion refuses block rows that do not cover the budget. */
  function Expand(blocks: seq<seq<int>>, width: nat, positions: seq<nat>, seqlens: seq<nat>, ratio: nat, budget: nat)
    : Result<seq<seq<int>>, SelectError>
    requires ratio >= 1 && |positions| == |seqlens| == |blocks|
  {
    if width != (budget + ratio - 1) / ratio then Err(WrongWidth)
    else
      Ok(seq(|blocks|, r requires 0 <= r < |blocks| =>
           ExpandRow(blocks[r], positions[r], seqlens[r], ratio, budget)))
  }

  /** Block rows of budget / ratio columns are accepted exactly when the ratio divides the budget. */
  lemma ExpandAccepts(blocks: seq<seq<int>>, positions: seq<nat>, seqlens: seq<nat>, ratio: nat, budget: nat)
    requires ratio >= 1 && |positions| == |seqlens| == |blocks|
    ensures Expand(blocks, budget / ratio, positions, seqlens, ratio, budget).Ok? <==> budget % ratio == 0
  {
    var k, r := budget / ratio, budget % ratio;
    assert budget == k * ratio + r;
    if r == 0 {
      Modular.DivModUnique(budget + ratio - 1, ratio, k, ratio - 1);
    } else {
      assert (k + 1) * ratio == k * ratio + ratio;
      Modular.DivModUnique(budget + ratio - 1, ratio, k + 1, r - 1);
    }
  }

  // ---------------------------------------------------------------------------
  // What a row selects
  // ---------------------------------------------------------------------------

  function Tokens(sel: seq<nat>, ratio: nat): seq<int> {
    if sel == [] then [] else Tokens(sel[..|sel| - 1], ratio) + BlockTokens(sel[|sel| - 1], ratio)
  }

  lemma {:induction false} LivePadding(n: nat)
    ensures Live(Padding(n)) == []
  {
    if n > 0 {
      assert Padding(n)[..n - 1] == Padding(n - 1);
      LivePadding(n - 1);
    }
  }

  lemma {:induction false} AllLive(s: seq<int>)
    requires forall i :: 0 <= i < |s| ==> s[i] >= 0
    ensures Live(s) == s
  {
    if s != [] { AllLive(s[..|s| - 1]); }
  }

  /** A block that lies inside the sequence keeps all its tokens; padding keeps none. */
  lemma LiveBlock(b: int, ratio: nat, seqlen: nat)
    requires b >= -1 && (b >= 0 ==> (b + 1) * ratio <= seqlen)
    ensures Live(Masked(BlockTokens(b, ratio), seqlen)) == if b >= 0 then BlockTokens(b, ratio) else []
  {
    var t := BlockTokens(b, ratio);
    if b >= 0 {
      assert (b + 1) * ratio == b * ratio + ratio && b * ratio >= 0;
      assert Masked(t, seqlen) == t;
      AllLive(t);
    } else {
      assert Masked(t, seqlen) == Padding(ratio);
      LivePadding(ratio);
    }
  }

  lemma MaskedAppend(a: seq<int>, b: seq<int>, seqlen: nat)
    ensures Masked(a + b, seqlen) == Masked(a, seqlen) + Masked(b, seqlen)
  {
  }

  lemma {:induction false} ExpandPadding(blocks: seq<int>, n: nat, ratio: nat, seqlen: nat)
    ensures Live(Masked(ExpandBlocks(blocks + Padding(n), ratio), seqlen)) ==
      Live(Masked(ExpandBlocks(blocks, ratio), seqlen))
  {
    if n == 0 {
      assert blocks + Padding(0) == blocks;
    } else {
      var all := blocks + Padding(n);
      assert all[..|all| - 1] == blocks + Padding(n - 1) && all[|all| - 1] == -1;
      ExpandPadding(blocks, n - 1, ratio, seqlen);
      var e := ExpandBlocks(blocks + Padding(n - 1), ratio);
      MaskedAppend(e, BlockTokens(-1, ratio), seqlen);
      LiveAppend(Masked(e, seqlen), Masked(BlockTokens(-1, ratio), seqlen));
      LiveBlock(-1, ratio, seqlen);
    }
  }

  lemma {:induction false} ExpandSelected(sel: seq<nat>, ratio: nat, seqlen: nat)
    requires forall k :: 0 <= k < |sel| ==> InSequence(sel[k], ratio, seqlen)
    ensures Live(Masked(ExpandBlocks(AsInts(sel), ratio), seqlen)) == Tokens(sel, ratio)
  {
    if sel != [] {
      var last := |sel| - 1;
      assert AsInts(sel)[..last] == AsInts(sel[..last]);
      ExpandSelected(sel[..last], ratio, seqlen);
      var e := ExpandBlocks(AsInts(sel[..last]), ratio);
      MaskedAppend(e, BlockTokens(sel[last], ratio), seqlen);
      LiveAppend(Masked(e, seqlen), Masked(BlockTokens(sel[last], ratio), seqlen));
      assert InSequence(sel[last], ratio, seqlen);
      LiveBlock(sel[last], ratio, seqlen);
    }
  }

  predicate InSequence(b: nat, ratio: nat, seqlen: nat) { (b + 1) * ratio <= seqlen }

  lemma {:induction false} ExpandLength(blocks: seq<int>, ratio: nat)
    ensures |ExpandBlocks(blocks, ratio)| == |blocks| * ratio
  {
    if blocks != [] {
      ExpandLength(blocks[..|blocks| - 1], ratio);
      assert |blocks| * ratio == (|blocks| - 1) * ratio + ratio;
    }
  }

  lemma {:induction false} TailLive(q: nat, seqlen: nat, ratio: nat)
    requires ratio >= 1 && q < seqlen
    ensures TailStart(q, ratio) <= q + 1 < TailStart(q, ratio) + ratio
    ensures Live(Tail(q, seqlen, ratio)) == Range(TailStart(q, ratio), q + 1)
  {
    var start := TailStart(q, ratio);
    assert q + 1 == ((q + 1) / ratio) * ratio + (q + 1) % ratio;
    var n := q + 1 - start;
    assert Tail(q, seqlen, ratio) == Range(start, q + 1) + Padding(ratio - 1 - n);
    LiveAppend(Range(start, q + 1), Padding(ratio - 1 - n));
    AllLive(Range(start, q + 1));
    LivePadding(ratio - 1 - n);
  }

  /** What position q may see of the scored blocks: the chosen blocks' tokens, then the open block. */
  function Chosen(row: seq<real>, q: nat, ratio: nat, budget: nat): seq<int>
    requires ratio >= 1
  {
    var start := TailStart(q, ratio);
    Tokens(Best(row, budget / ratio), ratio) + if start <= q + 1 then Range(start, q + 1) else []
  }

  lemma BlockInside(b: nat, q: nat, ratio: nat)
    requires ratio >= 1 && b < (q + 1) / ratio
    ensures InSequence(b, ratio, q + 1) && (b + 1) * ratio <= TailStart(q, ratio) <= q + 1
  {
    Modular.MulMonotone(b + 1, (q + 1) / ratio, ratio);
    assert q + 1 == ((q + 1) / ratio) * ratio + (q + 1) % ratio;
  }

  /** A row lists the chosen tokens first and padding after, in a row of fixed width. */
  lemma RowIsChosen(row: seq<real>, q: nat, seqlen: nat, ratio: nat, budget: nat)
    requires ratio >= 1 && budget % ratio == 0 && q < seqlen && |row| == (q + 1) / ratio
    ensures var chosen := Chosen(row, q, ratio, budget);
      && |chosen| <= budget + ratio - 1
      && ExpandRow(TopkRow(row, budget / ratio), q, seqlen, ratio, budget) ==
        chosen + Padding(budget + ratio - 1 - |chosen|)
  {
    hide Argsort, Live, ExpandBlocks, Tokens, Compact, Tail, Best;
    var k := budget / ratio;
    var sel, blocks := Best(row, k), TopkRow(row, k);
    var all := ExpandBlocks(blocks, ratio);
    ExpandLength(blocks, ratio);
    assert k * ratio == budget;
    assert all[..Min(|all|, budget)] == all;
    forall a | 0 <= a < |sel| ensures InSequence(sel[a], ratio, seqlen) {
      BlockInside(sel[a], q, ratio);
    }
    ExpandSelected(sel, ratio, seqlen);
    ExpandPadding(AsInts(sel), k - Min(|row|, k), ratio, seqlen);
    TailLive(q, seqlen, ratio);
    var m, t := Masked(all, seqlen), Tail(q, seqlen, ratio);
    LiveAppend(m, t);
    assert |m + t| == budget + ratio - 1;
    assert forall i :: 0 <= i < |t| ==> t[i] >= -1 by { TailAbove(q, seqlen, ratio); }
    CompactIs(m + t);
  }

  lemma TailAbove(q: nat, seqlen: nat, ratio: nat)
    requires ratio >= 1
    ensures forall i :: 0 <= i < |Tail(q, seqlen, ratio)| ==> Tail(q, seqlen, ratio)[i] >= -1
  {
  }

  ghost predicate Distinct(s: seq<int>) {
    forall a, b :: 0 <= a < b < |s| ==> s[a] != s[b]
  }

  /** A token is listed exactly when its block is. */
  lemma {:induction false} TokenListed(sel: seq<nat>, ratio: nat, t: int)
    requires ratio >= 1
    ensures t in Tokens(sel, ratio) <==> t >= 0 && t / ratio in sel
  {
    if sel != [] {
      var last := |sel| - 1;
      TokenListed(sel[..last], ratio, t);
      InBlock(sel[last], ratio, t);
      assert sel == sel[..last] + [sel[last]];
    }
  }

  lemma InBlock(b: nat, ratio: nat, t: int)
    requires ratio >= 1
    ensures t in BlockTokens(b, ratio) <==> t >= 0 && t / ratio == b
  {
    var block := BlockTokens(b, ratio);
    assert b * ratio >= 0;
    if t >= 0 && t / ratio == b {
      assert t == b * ratio + t % ratio;
      assert block[t % ratio] == t;
    }
    if t in block {
      var o :| 0 <= o < ratio && block[o] == t;
      Modular.DivModUnique(t, ratio, b, o);
    }
  }

  lemma {:induction false} TokensDistinct(sel: seq<nat>, ratio: nat)
    requires ratio >= 1 && forall a, b :: 0 <= a < b < |sel| ==> sel[a] != sel[b]
    ensures Distinct(Tokens(sel, ratio))
  {
    if sel != [] {
      var last := |sel| - 1;
      TokensDistinct(sel[..last], ratio);
      var before, block := Tokens(sel[..last], ratio), BlockTokens(sel[last], ratio);
      forall a, b | 0 <= a < |before| && 0 <= b < |block| ensures before[a] != block[b] {
        TokenListed(sel[..last], ratio, before[a]);
        InBlock(sel[last], ratio, block[b]);
        assert before[a] in before && block[b] in block;
      }
    }
  }

  lemma {:induction false} TokensLength(sel: seq<nat>, ratio: nat)
    ensures |Tokens(sel, ratio)| == |sel| * ratio
  {
    if sel != [] {
      TokensLength(sel[..|sel| - 1], ratio);
      assert |sel| * ratio == (|sel| - 1) * ratio + ratio;
    }
  }

  lemma ChosenMember(row: seq<real>, q: nat, ratio: nat, budget: nat, t: int)
    requires ratio >= 1 && |row| == (q + 1) / ratio
    ensures TailStart(q, ratio) <= q + 1
    ensures t in Chosen(row, q, ratio, budget) <==>
      (t >= 0 && t / ratio in Best(row, budget / ratio)) || TailStart(q, ratio) <= t <= q
  {
    TailLive(q, q + 1, ratio);
    TokenListed(Best(row, budget / ratio), ratio, t);
    var tail := Range(TailStart(q, ratio), q + 1);
    assert t in tail <==> TailStart(q, ratio) <= t <= q by {
      if TailStart(q, ratio) <= t <= q { assert tail[t - TailStart(q, ratio)] == t; }
    }
  }

  /** The chosen tokens are at most q, and none is listed twice. */
  lemma ChosenIsCausal(row: seq<real>, q: nat, ratio: nat, budget: nat)
    requires ratio >= 1 && |row| == (q + 1) / ratio
    ensures Distinct(Chosen(row, q, ratio, budget))
    ensures forall t :: t in Chosen(row, q, ratio, budget) ==> 0 <= t <= q
  {
    hide Best;
    var sel, start := Best(row, budget / ratio), TailStart(q, ratio);
    BestIsBest(row, budget / ratio);
    TokensDistinct(sel, ratio);
    TailLive(q, q + 1, ratio);
    var tokens := Tokens(sel, ratio);
    forall t | t in Chosen(row, q, ratio, budget) ensures 0 <= t <= q && (t in tokens ==> t < start) {
      ChosenMember(row, q, ratio, budget, t);
      TokenListed(sel, ratio, t);
      if t in tokens { TokenBelow(t, q, ratio); }
    }
    assert forall a :: 0 <= a < |tokens| ==> tokens[a] in tokens && tokens[a] in Chosen(row, q, ratio, budget);
  }

  lemma TokenBelow(t: int, q: nat, ratio: nat)
    requires ratio >= 1 && t >= 0 && t / ratio < (q + 1) / ratio
    ensures t < TailStart(q, ratio)
  {
    BlockInside(t / ratio, q, ratio);
    assert t == (t / ratio) * ratio + t % ratio;
    assert (t / ratio + 1) * ratio == (t / ratio) * ratio + ratio;
  }

  /** Every token up to q is chosen exactly when the complete blocks fit the budget. */
  lemma ChosenIsDense(row: seq<real>, q: nat, ratio: nat, budget: nat)
    requires ratio >= 1 && budget % ratio == 0 && |row| == (q + 1) / ratio
    ensures (forall t :: 0 <= t <= q ==> t in Chosen(row, q, ratio, budget)) <==> TailStart(q, ratio) <= budget
  {
    var k, nb := budget / ratio, (q + 1) / ratio;
    assert budget == k * ratio;
    if nb <= k {
      Modular.MulMonotone(nb, k, ratio);
      AllChosen(row, q, ratio, budget);
    } else {
      Modular.MulMonotone(k + 1, nb, ratio);
      assert (k + 1) * ratio == k * ratio + ratio;
      var t := SomeMissing(row, q, ratio, budget);
      assert 0 <= t <= q;
    }
  }

  lemma AllChosen(row: seq<real>, q: nat, ratio: nat, budget: nat)
    requires ratio >= 1 && |row| == (q + 1) / ratio <= budget / ratio
    ensures forall t :: 0 <= t <= q ==> t in Chosen(row, q, ratio, budget)
  {
    hide Best, Chosen;
    BestIsBest(row, budget / ratio);
    forall t | 0 <= t <= q ensures t in Chosen(row, q, ratio, budget) {
      ChosenMember(row, q, ratio, budget, t);
      if t < TailStart(q, ratio) { BlockBelow(t, |row|, ratio); }
    }
  }

  lemma SomeMissing(row: seq<real>, q: nat, ratio: nat, budget: nat) returns (t: nat)
    requires ratio >= 1 && |row| == (q + 1) / ratio > budget / ratio
    ensures t <= q && t !in Chosen(row, q, ratio, budget)
  {
    hide Best, Chosen;
    var b := LeftOut(row, budget / ratio);
    BlockInside(b, q, ratio);
    assert (b + 1) * ratio == b * ratio + ratio && b * ratio >= 0;
    Modular.MultipleMod(b, ratio);
    t := b * ratio;
    ChosenMember(row, q, ratio, budget, t);
  }

  lemma BlockBelow(t: nat, nb: nat, ratio: nat)
    requires ratio >= 1 && t < nb * ratio
    ensures t / ratio < nb
  {
    assert t == (t / ratio) * ratio + t % ratio;
    if t / ratio >= nb {
      Modular.MulMonotone(nb, t / ratio, ratio);
    }
  }

  /** With fewer slots than blocks, some block is left out. */
  lemma LeftOut(row: seq<real>, k: nat) returns (b: nat)
    requires k < |row|
    ensures b < |row| && b !in Best(row, k)
  {
    var order := Argsort(Negated(row));
    ArgsortSorts(Negated(row));
    b := order[k];
    forall a | 0 <= a < k ensures order[a] != b {
      assert Before(Negated(row), order[a], order[k]);
    }
  }

  // ---------------------------------------------------------------------------
  // Prefill and decode
  // ---------------------------------------------------------------------------

  /** Accepted by the configuration check. */
  datatype Config<!K, !Q> = Config(ratio: nat, budget: nat, compress: (seq<K>, nat) -> K, score: (Q, K) -> real) {
    predicate Valid() { ratio >= 2 && budget % ratio == 0 }
  }

  /** The compressed key of block b, from its own tokens and its first position. */
  function Compressed<K, Q>(c: Config<K, Q>, keys: seq<K>, b: nat): K
    requires c.Valid() && b < |keys| / c.ratio
  {
    BlockSlice(b, |keys|, c.ratio);
    c.compress(keys[b * c.ratio..(b + 1) * c.ratio], b * c.ratio)
  }

  lemma BlockSlice(b: nat, n: nat, ratio: nat)
    requires ratio >= 1 && b < n / ratio
    ensures 0 <= b * ratio <= (b + 1) * ratio <= n
  {
    Modular.MulMonotone(b + 1, n / ratio, ratio);
    assert n == (n / ratio) * ratio + n % ratio;
    assert (b + 1) * ratio == b * ratio + ratio;
  }

  function CompressedKeys<K, Q>(c: Config<K, Q>, keys: seq<K>): (ck: seq<K>)
    requires c.Valid()
    ensures |ck| == |keys| / c.ratio
  {
    seq(|keys| / c.ratio, b requires 0 <= b < |keys| / c.ratio => Compressed(c, keys, b))
  }

  function Scores<K, Q>(c: Config<K, Q>, ck: seq<K>, query: Q): (row: seq<real>)
    ensures |row| == |ck|
  {
    seq(|ck|, b requires 0 <= b < |ck| => c.score(query, ck[b]))
  }

  /** Decode at the last position; without a complete block only the tail is visible. */
  function DecodeSlots<K, Q>(c: Config<K, Q>, ck: seq<K>, n: nat, query: Q): seq<int>
    requires c.Valid() && n > 0
  {
    if |ck| > 0 then ExpandRow(TopkRow(Scores(c, ck, query), c.budget / c.ratio), n - 1, n, c.ratio, c.budget)
    else ExpandRow(Padding(c.budget / c.ratio), n - 1, n, c.ratio, c.budget)
  }

  /** Row i of a prefill of all tokens: the columns up to (i+1)/ratio take part. */
  function PrefillSlots<K, Q>(c: Config<K, Q>, keys: seq<K>, i: nat, query: Q): seq<int>
    requires c.Valid() && i < |keys|
  {
    var ck := CompressedKeys(c, keys);
    Modular.DivMonotone(i + 1, |keys|, c.ratio);
    if |ck| > 0 then ExpandRow(TopkRow(Scores(c, ck, query)[0..(i + 1) / c.ratio], c.budget / c.ratio), i, |keys|,
                               c.ratio, c.budget)
    else ExpandRow(Padding(c.budget / c.ratio), i, |keys|, c.ratio, c.budget)
  }

  /** The scores that position i can use. */
  function Visible<K, Q>(c: Config<K, Q>, keys: seq<K>, i: nat, query: Q): (row: seq<real>)
    requires c.Valid() && i < |keys|
    ensures |row| == (i + 1) / c.ratio
  {
    Scores(c, CompressedKeys(c, keys[..i + 1]), query)
  }

  lemma VisibleColumns<K, Q>(c: Config<K, Q>, keys: seq<K>, i: nat, query: Q)
    requires c.Valid() && i < |keys|
    ensures (i + 1) / c.ratio <= |keys| / c.ratio
    ensures Scores(c, CompressedKeys(c, keys), query)[0..(i + 1) / c.ratio] == Visible(c, keys, i, query)
  {
    Modular.DivMonotone(i + 1, |keys|, c.ratio);
    forall b: nat | b < (i + 1) / c.ratio ensures Compressed(c, keys[..i + 1], b) == Compressed(c, keys, b) {
      BlockSlice(b, i + 1, c.ratio);
      assert keys[..i + 1][b * c.ratio..(b + 1) * c.ratio] == keys[b * c.ratio..(b + 1) * c.ratio];
    }
  }

  /** Prefill row i and a decode step at i select the same tokens in the same order: the chosen ones. */
  lemma PrefillIsDecode<K, Q>(c: Config<K, Q>, keys: seq<K>, i: nat, query: Q)
    requires c.Valid() && i < |keys|
    ensures PrefillSlots(c, keys, i, query) == DecodeSlots(c, CompressedKeys(c, keys[..i + 1]), i + 1, query)
    ensures var chosen := Chosen(Visible(c, keys, i, query), i, c.ratio, c.budget);
      && |chosen| <= c.budget + c.ratio - 1
      && PrefillSlots(c, keys, i, query) == chosen + Padding(c.budget + c.ratio - 1 - |chosen|)
  {
    hide Scores, Compressed, ExpandRow, Chosen, TopkRow;
    var row := Visible(c, keys, i, query);
    VisibleColumns(c, keys, i, query);
    RowIsChosen(row, i, |keys|, c.ratio, c.budget);
    RowIsChosen(row, i, i + 1, c.ratio, c.budget);
    NoColumns(c.budget / c.ratio);
    assert |row| == 0 ==> row == [];
  }

  // ---------------------------------------------------------------------------
  // What a position selects, from the keys and the query alone
  // ---------------------------------------------------------------------------

  /** The query's score for the key that block b compresses to. */
  function BlockScore<K, Q>(c: Config<K, Q>, keys: seq<K>, b: nat, query: Q): real
    requires c.Valid() && b < |keys| / c.ratio
  {
    BlockSlice(b, |keys|, c.ratio);
    c.score(query, c.compress(keys[b * c.ratio..(b + 1) * c.ratio], b * c.ratio))
  }

  /** Block a is preferred to block b: it scores higher, or it scores the same and comes first. */
  ghost predicate Preferred<K, Q>(c: Config<K, Q>, keys: seq<K>, a: nat, b: nat, query: Q)
    requires c.Valid() && a < |keys| / c.ratio && b < |keys| / c.ratio
  {
    var x, y := BlockScore(c, keys, a, query), BlockScore(c, keys, b, query);
    x > y || (x == y && a < b)
  }

  /** As many complete blocks as fit the budget, the most preferred first, and none preferred to them left out. */
  ghost predicate Ranked<K, Q>(c: Config<K, Q>, keys: seq<K>, query: Q, sel: seq<nat>)
    requires c.Valid()
  {
    var nb, k := |keys| / c.ratio, c.budget / c.ratio;
    && |sel| == (if nb < k then nb else k) && (forall a :: 0 <= a < |sel| ==> sel[a] < nb)
    && (forall a, b :: 0 <= a < b < |sel| ==> Preferred(c, keys, sel[a], sel[b], query))
    && (forall a, b: nat :: 0 <= a < |sel| && b < nb && b !in sel ==> Preferred(c, keys, sel[a], b, query))
  }

  /** The tokens of block b, from this slot on. */
  ghost predicate ListsBlock(slots: seq<int>, at: int, b: nat, ratio: nat) {
    0 <= at && at + ratio <= |slots| && forall i :: at <= i < at + ratio ==> slots[i] == b * ratio + (i - at)
  }

  /** The last position lists the tokens of the ranked blocks, then those of the open block, then nothing. */
  ghost predicate Lists<K, Q>(c: Config<K, Q>, keys: seq<K>, sel: seq<nat>, slots: seq<int>)
    requires c.Valid()
  {
    var open, m := (|keys| / c.ratio) * c.ratio, |sel| * c.ratio;
    && |slots| == c.budget + c.ratio - 1 && m + (|keys| - open) <= |slots|
    && (forall a :: 0 <= a < |sel| ==> ListsBlock(slots, a * c.ratio, sel[a], c.ratio))
    && (forall i :: 0 <= i < |slots| && m <= i < m + (|keys| - open) ==> slots[i] == open + (i - m))
    && (forall i :: 0 <= i < |slots| && m + (|keys| - open) <= i ==> slots[i] == -1)
  }

  ghost predicate Selects<K, Q>(c: Config<K, Q>, keys: seq<K>, query: Q, slots: seq<int>)
    requires c.Valid()
  {
    exists sel :: Ranked(c, keys, query, sel) && Lists(c, keys, sel, slots)
  }

  lemma {:induction false} BestRanked<K, Q>(c: Config<K, Q>, keys: seq<K>, query: Q)
    requires c.Valid()
    ensures Ranked(c, keys, query, Best(Scores(c, CompressedKeys(c, keys), query), c.budget / c.ratio))
  {
    var row, k := Scores(c, CompressedKeys(c, keys), query), c.budget / c.ratio;
    var order, sel := Argsort(Negated(row)), Best(row, k);
    hide Scores, Argsort, Negated, BlockScore, Preferred, Before;
    ArgsortSorts(Negated(row));
    forall a, b | 0 <= a < b < |sel| ensures Preferred(c, keys, sel[a], sel[b], query) {
      assert Before(Negated(row), order[a], order[b]);
      PreferredIff(c, keys, query, order[a], order[b]);
    }
    forall a, b: nat | 0 <= a < |sel| && b < |row| && b !in sel ensures Preferred(c, keys, sel[a], b, query) {
      var j := PositionOf(order, b);
      if j < |sel| { InPrefix(order, |sel|, j); }
      assert Before(Negated(row), order[a], order[j]);
      PreferredIff(c, keys, query, order[a], order[j]);
    }
  }

  lemma InPrefix(order: seq<nat>, n: nat, j: nat)
    requires j < n <= |order|
    ensures order[j] in order[..n]
  {
    assert order[..n][j] == order[j];
  }

  lemma PositionOf(order: seq<nat>, b: nat) returns (j: nat)
    requires b in order
    ensures j < |order| && order[j] == b
  {
    j :| j < |order| && order[j] == b;
  }

  lemma PreferredIff<K, Q>(c: Config<K, Q>, keys: seq<K>, query: Q, a: nat, b: nat)
    requires c.Valid() && a < |keys| / c.ratio && b < |keys| / c.ratio
    ensures Before(Negated(Scores(c, CompressedKeys(c, keys), query)), a, b) <==> Preferred(c, keys, a, b, query)
  {
    var row := Scores(c, CompressedKeys(c, keys), query);
    assert row[a] == BlockScore(c, keys, a, query) && row[b] == BlockScore(c, keys, b, query);
    hide BlockScore, Scores;
  }

  lemma {:induction false} TokensListed(sel: seq<nat>, ratio: nat, a: nat)
    requires a < |sel|
    ensures |Tokens(sel, ratio)| == |sel| * ratio && ListsBlock(Tokens(sel, ratio), a * ratio, sel[a], ratio)
    decreases |sel|
  {
    var last := |sel| - 1;
    TokensLength(sel, ratio);
    TokensLength(sel[..last], ratio);
    assert |sel| * ratio == last * ratio + ratio;
    var before, block := Tokens(sel[..last], ratio), BlockTokens(sel[last], ratio);
    assert Tokens(sel, ratio) == before + block;
    if a < last {
      TokensListed(sel[..last], ratio, a);
      ListedFirst(before, before + block, a * ratio, sel[a], ratio);
    } else {
      assert sel[last] * ratio >= 0;
      var at := last * ratio;
      forall i | at <= i < at + ratio ensures (before + block)[i] == sel[last] * ratio + (i - at) {
        assert (before + block)[i] == block[i - at];
      }
    }
  }

  lemma {:induction false} ChosenLists<K, Q>(c: Config<K, Q>, keys: seq<K>, row: seq<real>, slots: seq<int>)
    requires c.Valid() && |keys| > 0 && |row| == |keys| / c.ratio
    requires var chosen := Chosen(row, |keys| - 1, c.ratio, c.budget);
      |chosen| <= c.budget + c.ratio - 1 && slots == chosen + Padding(c.budget + c.ratio - 1 - |chosen|)
    ensures Lists(c, keys, Best(row, c.budget / c.ratio), slots)
  {
    var q, ratio := |keys| - 1, c.ratio;
    var sel, chosen := Best(row, c.budget / ratio), Chosen(row, q, ratio, c.budget);
    TailLive(q, |keys|, ratio);
    TokensLength(sel, ratio);
    var tokens, open := Tokens(sel, ratio), (|keys| / ratio) * ratio;
    assert q + 1 == |keys| && TailStart(q, ratio) == open;
    hide Best, Tokens, Chosen;
    ChosenIs(row, q, ratio, c.budget);
    forall a | 0 <= a < |sel| ensures ListsBlock(slots, a * ratio, sel[a], ratio) {
      TokensListed(sel, ratio, a);
      ListedFirst(tokens, slots, a * ratio, sel[a], ratio);
    }
  }

  lemma ListedFirst(tokens: seq<int>, slots: seq<int>, at: int, b: nat, ratio: nat)
    requires ListsBlock(tokens, at, b, ratio) && tokens <= slots
    ensures ListsBlock(slots, at, b, ratio)
  {
  }

  lemma ChosenIs(row: seq<real>, q: nat, ratio: nat, budget: nat)
    requires ratio >= 1 && TailStart(q, ratio) <= q + 1
    ensures Chosen(row, q, ratio, budget) ==
      Tokens(Best(row, budget / ratio), ratio) + Range(TailStart(q, ratio), q + 1)
  {
  }

  /** What a decode step selects. */
  lemma DecodeSelects<K, Q>(c: Config<K, Q>, keys: seq<K>, query: Q)
    requires c.Valid() && |keys| > 0
    ensures Selects(c, keys, query, DecodeSlots(c, CompressedKeys(c, keys), |keys|, query))
  {
    var row := Scores(c, CompressedKeys(c, keys), query);
    BestRanked(c, keys, query);
    hide Ranked, Scores, TopkRow, ExpandRow, Best, Chosen;
    RowIsChosen(row, |keys| - 1, |keys|, c.ratio, c.budget);
    if |row| == 0 {
      assert row == [];
      NoColumns(c.budget / c.ratio);
    }
    ChosenLists(c, keys, row, DecodeSlots(c, CompressedKeys(c, keys), |keys|, query));
  }

  /** What row i of a prefill selects: the same as a decode step with the first i + 1 keys. */
  lemma PrefillSelects<K, Q>(c: Config<K, Q>, keys: seq<K>, i: nat, query: Q)
    requires c.Valid() && i < |keys|
    ensures Selects(c, keys[..i + 1], query, PrefillSlots(c, keys, i, query))
  {
    hide Selects, PrefillSlots, DecodeSlots, Chosen;
    PrefillIsDecode(c, keys, i, query);
    DecodeSelects(c, keys[..i + 1], query);
  }

  // ---------------------------------------------------------------------------
  // The growing caches
  // ---------------------------------------------------------------------------

  /** Rows in a private buffer that doubles when full; readers see exactly the rows appended. */
  class Buffer<T(0)> {
    var data: array<T>
    var len: nat
    ghost var contents: seq<T>

    ghost predicate Valid()
      reads this, data
    {
      len <= data.Length && contents == data[..len]
    }

    /** Rows that are there from the start fill the buffer. */
    constructor (rows: seq<T>)
      ensures Valid() && contents == rows && fresh(data)
    {
      data := new T[|rows|](i requires 0 <= i < |rows| => rows[i]);
      len := |rows|;
      contents := rows;
      new;
      assert data[..len] == rows;
    }

    method Append(rows: seq<T>)
      requires Valid()
      modifies this, data
      ensures Valid() && contents == old(contents) + rows
      ensures data == old(data) || fresh(data)
      ensures len > old(data.Length) ==> data.Length >= 2 * old(data.Length) && data.Length >= 16
    {
      var n, m := len, |rows|;
      if n + m > data.Length {
        var cap := data.Length;
        var newcap := Max(n + m, Max(2 * (if cap > n then cap else n), 16));
        var grown := new T[newcap];
        forall i | 0 <= i < n { grown[i] := data[i]; }
        assert grown[..n] == contents;
        data := grown;
      }
      forall i | 0 <= i < m { data[n + i] := rows[i]; }
      len := n + m;
      contents := contents + rows;
    }
  }

  function Max(a: nat, b: nat): nat { if a < b then b else a }

  /** Compress block by block, as a prefill does. */
  method CompressAll<K, Q>(c: Config<K, Q>, keys: seq<K>) returns (rows: seq<K>)
    requires c.Valid()
    ensures rows == CompressedKeys(c, keys)
  {
    rows := [];
    for b := 0 to |keys| / c.ratio
      invariant |rows| == b && forall k: nat :: k < b ==> rows[k] == CompressedKeys(c, keys)[k]
    {
      BlockSlice(b, |keys|, c.ratio);
      rows := rows + [c.compress(keys[b * c.ratio..(b + 1) * c.ratio], b * c.ratio)];
    }
  }

  /** The indexer cache of one layer: a key per token, a compressed key per complete block. */
  class QsaCache<K(0, !new), Q(!new)> {
    const c: Config<K, Q>
    const keys: Buffer<K>
    const blocks: Buffer<K>

    ghost predicate Valid()
      reads this, keys, blocks, keys.data, blocks.data
    {
      && c.Valid() && keys != blocks && keys.data != blocks.data
      && keys.Valid() && blocks.Valid()
      && blocks.contents == CompressedKeys(c, keys.contents)
    }

    /** The cache that a prefill leaves: every token's key, and a compressed key per complete block. */
    constructor (c: Config<K, Q>, prompt: seq<K>)
      requires c.Valid()
      ensures Valid() && this.c == c && keys.contents == prompt
      ensures fresh(keys) && fresh(blocks) && fresh(keys.data) && fresh(blocks.data)
    {
      var rows := CompressAll(c, prompt);
      this.c := c;
      keys := new Buffer<K>(prompt);
      blocks := new Buffer<K>(rows);
    }

    /** Append the token's key, and the compressed key of a block that it completes; then select. */
    method Step(key: K, query: Q, pos: nat) returns (slots: seq<int>)
      requires Valid() && pos == |keys.contents|
      modifies keys, blocks, keys.data, blocks.data
      ensures Valid() && keys.contents == old(keys.contents) + [key]
      ensures keys.data == old(keys.data) || fresh(keys.data)
      ensures blocks.data == old(blocks.data) || fresh(blocks.data)
      ensures slots == DecodeSlots(c, CompressedKeys(c, keys.contents), pos + 1, query)
      ensures Selects(c, keys.contents, query, slots)
    {
      hide ExpandRow, TopkRow, Scores, Selects;
      ghost var before := keys.contents;
      keys.Append([key]);
      CompressedGrow(c, before, key);
      if (pos + 1) % c.ratio == 0 {
        WholeBlock(pos + 1, c.ratio);
        var group := keys.data[pos + 1 - c.ratio..pos + 1];
        assert group == keys.contents[pos + 1 - c.ratio..pos + 1];
        blocks.Append([c.compress(group, pos + 1 - c.ratio)]);
      }
      slots := DecodeSlots(c, blocks.data[..blocks.len], keys.len, query);
      DecodeSelects(c, keys.contents, query);
    }
  }

  lemma WholeBlock(n: nat, ratio: nat)
    requires ratio >= 1 && n > 0 && n % ratio == 0
    ensures n >= ratio && n / ratio >= 1 && (n / ratio - 1) * ratio == n - ratio && (n / ratio) * ratio == n
  {
    assert n == (n / ratio) * ratio;
    assert (n / ratio - 1) * ratio == (n / ratio) * ratio - ratio;
  }

  /** One more token adds the key of the block it completes, and changes nothing else. */
  lemma CompressedGrow<K, Q>(c: Config<K, Q>, keys: seq<K>, key: K)
    requires c.Valid()
    ensures var n := |keys| + 1; var grown := keys + [key];
      && (n % c.ratio != 0 ==> CompressedKeys(c, grown) == CompressedKeys(c, keys))
      && (n % c.ratio == 0 ==>
            n >= c.ratio &&
              CompressedKeys(c, grown) == CompressedKeys(c, keys) + [c.compress(grown[n - c.ratio..n], n - c.ratio)])
  {
    var n, grown := |keys| + 1, keys + [key];
    Modular.NextDivMod(|keys|, c.ratio);
    Modular.DivMonotone(|keys|, n, c.ratio);
    forall b: nat | b < |keys| / c.ratio ensures Compressed(c, grown, b) == Compressed(c, keys, b) {
      BlockSlice(b, |keys|, c.ratio);
      assert grown[b * c.ratio..(b + 1) * c.ratio] == keys[b * c.ratio..(b + 1) * c.ratio];
    }
    if n % c.ratio == 0 {
      WholeBlock(n, c.ratio);
    }
  }
}
