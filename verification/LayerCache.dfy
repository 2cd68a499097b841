/** The decode cache of one attention layer: a ring of the last `win` token rows, then the
    compressed rows. Attention is modelled up to the rows it gathers, in order. */
module LayerCache {
  import opened Prelude
  import Modular
  import C = Compressor

  type Vec = C.Vec
  type Rotate = (Vec, nat) -> Vec

  /** One input token: its row for the window and its input to the compressor. */
  datatype Item = Item(row: Vec, tok: C.Token)

  function RowsOf(items: seq<Item>): (r: seq<Vec>)
    ensures |r| == |items|
  {
    seq(|items|, i requires 0 <= i < |items| => items[i].row)
  }

  function ToksOf(items: seq<Item>): (r: seq<C.Token>)
    ensures |r| == |items|
  {
    seq(|items|, i requires 0 <= i < |items| => items[i].tok)
  }

  // ---------------------------------------------------------------------------
  // Indices
  // ---------------------------------------------------------------------------

  function Padded(n: nat): seq<int> { seq(n, k => -1) }

  /** Row i of the window indices: ring slots once the ring is full, a padded prefix before. */
  function WindowTopk(win: nat, seqlen: nat, startPos: nat, i: nat): seq<int>
    requires win >= 1 && i < seqlen
  {
    if startPos >= win - 1 then
      var s := startPos % win;
      Range(s + 1, win) + Range(0, s + 1)
    else if startPos > 0 then
      Range(0, startPos + 1) + Padded(win - (startPos + 1))
    else
      var lo := if i + 1 <= win then 0 else i + 1 - win;
      seq(if seqlen < win then seqlen else win, k => if lo + k > i then -1 else lo + k)
  }

  /** Row i of the compressed-row indices, shifted by `offset`. */
  function CompressTopk(ratio: nat, seqlen: nat, startPos: nat, offset: nat, i: nat): seq<int>
    requires ratio >= 1 && i < seqlen
  {
    if startPos > 0 then
      var n := (startPos + 1) / ratio;
      Range(offset, offset + if n < 1 then 1 else n)
    else
      var n := seqlen / ratio;
      seq(if n < 1 then 1 else n, k requires 0 <= k => if k >= (i + 1) / ratio then -1 else offset + k)
  }

  /** The rows attended to: -1 is masked, and naming a row beyond the pool is an error. */
  function Gather(rows: seq<Vec>, idx: seq<int>): Option<seq<Vec>>
  {
    if idx == [] then Some([])
    else
      var rest := Gather(rows, idx[1..]);
      if idx[0] == -1 then rest
      else if idx[0] < 0 || idx[0] >= |rows| || rest.None? then None
      else Some([rows[idx[0]]] + rest.value)
  }

  lemma {:induction false} GatherNamed(rows: seq<Vec>, idx: seq<int>, out: seq<Vec>, rest: seq<int>)
    requires |out| == |idx|
    requires forall k :: 0 <= k < |idx| ==> 0 <= idx[k] < |rows| && rows[idx[k]] == out[k]
    ensures Gather(rows, rest).None? ==> Gather(rows, idx + rest).None?
    ensures Gather(rows, rest).Some? ==> Gather(rows, idx + rest) == Some(out + Gather(rows, rest).value)
  {
    if idx == [] {
      assert idx + rest == rest;
      if Gather(rows, rest).Some? { assert out + Gather(rows, rest).value == Gather(rows, rest).value; }
    } else {
      assert (idx + rest)[1..] == idx[1..] + rest;
      GatherNamed(rows, idx[1..], out[1..], rest);
      if Gather(rows, rest).Some? {
        assert [out[0]] + (out[1..] + Gather(rows, rest).value) == out + Gather(rows, rest).value;
      }
    }
  }

  lemma {:induction false} GatherPadded(rows: seq<Vec>, n: nat, rest: seq<int>)
    ensures Gather(rows, Padded(n) + rest) == Gather(rows, rest)
  {
    if n == 0 {
      assert Padded(n) + rest == rest;
    } else {
      assert (Padded(n) + rest)[1..] == Padded(n - 1) + rest;
      GatherPadded(rows, n - 1, rest);
    }
  }

  // ---------------------------------------------------------------------------
  // What a position attends to
  // ---------------------------------------------------------------------------

  /** First token in the window of the last of n tokens. */
  function WindowLo(win: nat, n: nat): nat { if n <= win then 0 else n - win }

  ghost predicate ItemsOk(c: C.Config, items: seq<Item>) {
    c.ratio > 0 ==> c.Valid() && C.Shaped(c, ToksOf(items))
  }

  /** The compressed rows of a stream, rotated to the first position of their groups. */
  function CompRows(c: C.Config, pool: C.Pool, rotate: Rotate, items: seq<Item>): (r: seq<Vec>)
    requires ItemsOk(c, items)
    ensures |r| == if c.ratio == 0 then 0 else |items| / c.ratio
  {
    if c.ratio == 0 then []
    else
      var rows := C.Rows(c, pool, ToksOf(items), |items| / c.ratio);
      seq(|rows|, g requires 0 <= g < |rows| => rotate(rows[g], g * c.ratio))
  }

  /** The last token sees the window that ends with it, oldest first, then every completed group. */
  function Attended(win: nat, c: C.Config, pool: C.Pool, rotate: Rotate, items: seq<Item>): seq<Vec>
    requires ItemsOk(c, items)
  {
    RowsOf(items)[WindowLo(win, |items|)..] + CompRows(c, pool, rotate, items)
  }

  /** Row i of a prefill of the whole stream: the pool is the token rows followed by the compressed rows. */
  function PrefillAttended(win: nat, c: C.Config, pool: C.Pool, rotate: Rotate, items: seq<Item>,
                           i: nat): Option<seq<Vec>>
    requires win >= 1 && i < |items| && ItemsOk(c, items)
  {
    Gather(RowsOf(items) + CompRows(c, pool, rotate, items),
           WindowTopk(win, |items|, 0, i) + if c.ratio > 0 then CompressTopk(c.ratio, |items|, 0, |items|, i) else [])
  }

  /** Completed groups keep their rows as the stream grows. */
  lemma CompRowsPrefix(c: C.Config, pool: C.Pool, rotate: Rotate, items: seq<Item>, n: nat)
    requires ItemsOk(c, items) && n <= |items|
    ensures ItemsOk(c, items[..n])
    ensures CompRows(c, pool, rotate, items[..n]) <= CompRows(c, pool, rotate, items)
  {
    if c.ratio > 0 {
      var toks, pre := ToksOf(items), ToksOf(items[..n]);
      assert pre == toks[..n];
      C.ShapedSlice(c, toks, 0, n);
      var m := n / c.ratio;
      C.PrefixRows(c, pool, toks, n, m);
      Modular.DivMonotone(n, |items|, c.ratio);
      hide C.Row, C.Shaped;
      var a, b := C.Rows(c, pool, pre, m), C.Rows(c, pool, toks, |items| / c.ratio);
      forall g: nat | g < m ensures a[g] == b[g] {
        C.GroupFits(c, |toks|, g);
      }
    }
  }

  /** The window row of a prefill names exactly the tokens of the window, when the window has two slots or more. */
  lemma PrefillWindow(win: nat, rows: seq<Vec>, seqlen: nat, i: nat, rest: seq<int>)
    requires win >= 2 && i < seqlen <= |rows|
    ensures Gather(rows, rest).None? ==> Gather(rows, WindowTopk(win, seqlen, 0, i) + rest).None?
    ensures Gather(rows, rest).Some? ==>
      Gather(rows, WindowTopk(win, seqlen, 0, i) + rest) ==
        Some(rows[WindowLo(win, i + 1)..i + 1] + Gather(rows, rest).value)
  {
    var lo, width := WindowLo(win, i + 1), if seqlen < win then seqlen else win;
    var live := i + 1 - lo;
    var named := Range(lo, i + 1);
    assert WindowTopk(win, seqlen, 0, i) == named + Padded(width - live);
    assert (named + Padded(width - live)) + rest == named + (Padded(width - live) + rest);
    GatherPadded(rows, width - live, rest);
    GatherNamed(rows, named, rows[lo..i + 1], Padded(width - live) + rest);
  }

  lemma PrefillGroups(rows: seq<Vec>, ratio: nat, seqlen: nat, offset: nat, i: nat)
    requires ratio >= 1 && i < seqlen && offset + (i + 1) / ratio <= |rows|
    ensures Gather(rows, CompressTopk(ratio, seqlen, 0, offset, i)) == Some(rows[offset..offset + (i + 1) / ratio])
  {
    var m, n := (i + 1) / ratio, seqlen / ratio;
    Modular.DivMonotone(i + 1, seqlen, ratio);
    var width := if n < 1 then 1 else n;
    var named := Range(offset, offset + m);
    assert CompressTopk(ratio, seqlen, 0, offset, i) == named + Padded(width - m);
    assert Padded(width - m) + [] == Padded(width - m);
    GatherPadded(rows, width - m, []);
    GatherNamed(rows, named, rows[offset..offset + m], Padded(width - m));
    assert rows[offset..offset + m] + [] == rows[offset..offset + m];
  }

  /** Every row of a prefill attends to its window and its completed groups, and to nothing later. */
  lemma PrefillAttends(win: nat, c: C.Config, pool: C.Pool, rotate: Rotate, items: seq<Item>, i: nat)
    requires win >= 2 && i < |items| && ItemsOk(c, items)
    ensures ItemsOk(c, items[..i + 1])
    ensures PrefillAttended(win, c, pool, rotate, items, i) == Some(Attended(win, c, pool, rotate, items[..i + 1]))
  {
    CompRowsPrefix(c, pool, rotate, items, i + 1);
    var comp, mine := CompRows(c, pool, rotate, items), CompRows(c, pool, rotate, items[..i + 1]);
    var rows, S := RowsOf(items) + comp, |items|;
    var lo := WindowLo(win, i + 1);
    assert RowsOf(items[..i + 1]) == RowsOf(items)[..i + 1];
    assert RowsOf(items)[..i + 1][lo..] == rows[lo..i + 1];
    hide CompRows, ItemsOk, Gather;
    var rest := if c.ratio > 0 then CompressTopk(c.ratio, S, 0, S, i) else [];
    if c.ratio > 0 {
      PrefillGroups(rows, c.ratio, S, S, i);
      assert rows[S..S + |mine|] == mine;
    } else {
      GatherNamed(rows, [], [], []);
      GatherEmpty(rows);
    }
    PrefillWindow(win, rows, S, i, rest);
  }

  lemma GatherEmpty(rows: seq<Vec>)
    ensures Gather(rows, []) == Some([])
  {
  }

  /** With a one-slot window every prefill row names token 0, so only row 0 sees its own token. */
  lemma PrefillWindowExactly(win: nat, rows: seq<Vec>, i: nat)
    requires win >= 1 && i < |rows|
    ensures WindowTopk(win, |rows|, 0, i)[..if win == 1 then 1 else i + 1 - WindowLo(win, i + 1)] ==
      Range(WindowLo(win, i + 1), i + 1)
      <==> win >= 2 || i == 0
  {
    if win == 1 {
      assert WindowTopk(win, |rows|, 0, i)[..1] == [0];
      assert Range(i, i + 1) == [i as int];
      assert [0][0] == 0 && [i as int][0] == i;
    } else {
      var lo := WindowLo(win, i + 1);
      assert WindowTopk(win, |rows|, 0, i)[..i + 1 - lo] == Range(lo, i + 1);
    }
  }

  // ---------------------------------------------------------------------------
  // The ring
  // ---------------------------------------------------------------------------

  /** Slot p % win holds token p, for each of the last `win` tokens. */
  ghost predicate RingHolds(win: nat, mem: seq<Vec>, items: seq<Item>)
    requires 1 <= win <= |mem|
  {
    forall p: nat :: WindowLo(win, |items|) <= p < |items| ==> SlotHolds(win, mem, items, p)
  }

  ghost predicate SlotHolds(win: nat, mem: seq<Vec>, items: seq<Item>, p: nat)
    requires 1 <= win <= |mem| && p < |items|
  {
    mem[p % win] == items[p].row
  }

  lemma SlotsDistinct(win: nat, p: nat, n: nat)
    requires 1 <= win && p < n < p + win
    ensures p % win != n % win
  {
    if p % win == n % win {
      assert p == (p / win) * win + p % win && n == (n / win) * win + n % win;
      assert n - p == (n / win - p / win) * win;
      if n / win - p / win >= 1 {
        Modular.ScaleUp(n / win - p / win, win);
      } else {
        Modular.MulMonotone(n / win - p / win, 0, win);
      }
    }
  }

  lemma RingWrite(win: nat, mem: seq<Vec>, items: seq<Item>, item: Item)
    requires 1 <= win <= |mem| && RingHolds(win, mem, items)
    ensures |items| % win < win && RingHolds(win, mem[|items| % win := item.row], items + [item])
  {
    var n := |items|;
    var mem' := mem[n % win := item.row];
    forall p: nat | WindowLo(win, n + 1) <= p < n + 1
      ensures SlotHolds(win, mem', items + [item], p)
    {
      if p < n {
        SlotsDistinct(win, p, n);
        assert SlotHolds(win, mem, items, p);
      }
    }
  }

  /** What a prefill writes into the ring: the rows as they are, or the last `win` rotated by S mod win. */
  function PrefillRing(win: nat, rows: seq<Vec>): (mem: seq<Vec>)
    requires win >= 1 && |rows| > win
    ensures |mem| == win
  {
    var cutoff := |rows| % win;
    var tail := rows[|rows| - win..];
    tail[win - cutoff..] + tail[..win - cutoff]
  }

  lemma PrefillRingHolds(win: nat, mem: seq<Vec>, items: seq<Item>)
    requires 1 <= win <= |mem|
    requires |items| <= win ==> mem[..|items|] == RowsOf(items)
    requires |items| > win ==> mem[..win] == PrefillRing(win, RowsOf(items))
    ensures RingHolds(win, mem, items)
  {
    var S, rows := |items|, RowsOf(items);
    forall p: nat | WindowLo(win, S) <= p < S
      ensures SlotHolds(win, mem, items, p)
    {
      if S <= win {
        Modular.DivModUnique(p, win, 0, p);
        assert mem[..S][p] == rows[p];
      } else {
        var q, cutoff := S / win, S % win;
        var j := p - (S - win);
        assert S == q * win + cutoff;
        assert (q - 1) * win == q * win - win;
        if j < win - cutoff {
          Modular.DivModUnique(p, win, q - 1, cutoff + j);
          assert mem[..win][cutoff + j] == rows[S - win..][j];
        } else {
          Modular.DivModUnique(p, win, q, j - (win - cutoff));
          assert mem[..win][j - (win - cutoff)] == rows[S - win..][j];
        }
      }
    }
  }

  /** Decode at the last position names the tokens of the window, oldest first. */
  lemma DecodeWindow(win: nat, mem: seq<Vec>, items: seq<Item>, rest: seq<int>)
    requires 1 <= win <= |mem| && |items| > 0 && RingHolds(win, mem, items)
    ensures Gather(mem, rest).None? ==> Gather(mem, WindowTopk(win, 1, |items| - 1, 0) + rest).None?
    ensures Gather(mem, rest).Some? ==>
      Gather(mem, WindowTopk(win, 1, |items| - 1, 0) + rest) ==
        Some(RowsOf(items)[WindowLo(win, |items|)..] + Gather(mem, rest).value)
  {
    var n := |items|;
    var pos, lo := n - 1, WindowLo(win, n);
    var out := RowsOf(items)[lo..];
    var idx := WindowTopk(win, 1, pos, 0);
    if pos >= win - 1 {
      forall k | 0 <= k < |idx| ensures 0 <= idx[k] < |mem| && mem[idx[k]] == out[k] {
        RingOrder(win, n, k);
        assert SlotHolds(win, mem, items, n - win + k);
      }
      GatherNamed(mem, idx, out, rest);
    } else {
      var named, width := Range(0, n), if pos > 0 then win - n else 0;
      assert idx == named + Padded(width);
      assert (named + Padded(width)) + rest == named + (Padded(width) + rest);
      forall k | 0 <= k < n ensures mem[named[k]] == out[k] {
        Modular.DivModUnique(k, win, 0, k);
        assert SlotHolds(win, mem, items, k);
      }
      GatherPadded(mem, width, rest);
      GatherNamed(mem, named, out, Padded(width) + rest);
    }
  }

  /** The k-th ring index is the slot of the k-th oldest token in the window. */
  lemma RingOrder(win: nat, n: nat, k: int)
    requires 1 <= win <= n && 0 <= k < win
    ensures |WindowTopk(win, 1, n - 1, 0)| == win && WindowTopk(win, 1, n - 1, 0)[k] == (n - win + k) % win
  {
    var pos := n - 1;
    var q, s := pos / win, pos % win;
    assert pos == q * win + s;
    assert (q - 1) * win == q * win - win;
    if s + 1 + k < win {
      Modular.DivModUnique(n - win + k, win, q - 1, s + 1 + k);
    } else {
      Modular.DivModUnique(n - win + k, win, q, s + 1 + k - win);
    }
  }

  /**
   * Compressed indices of decode name every completed group; before the first group is complete
   * they name one row too many.
   */
  lemma DecodeGroups(mem: seq<Vec>, win: nat, ratio: nat, pos: nat)
    requires ratio >= 1 && |mem| == win + (pos + 1) / ratio
    ensures Gather(mem, CompressTopk(ratio, 1, pos, win, 0)) ==
      if 0 < pos && pos + 1 < ratio then None else Some(mem[win..])
  {
    var n := (pos + 1) / ratio;
    var idx := CompressTopk(ratio, 1, pos, win, 0);
    if pos == 0 {
      PrefillGroups(mem, ratio, 1, win, 0);
      assert mem[win..win + n] == mem[win..];
    } else if pos + 1 < ratio {
      Modular.DivModUnique(pos + 1, ratio, 0, pos + 1);
      assert idx == [win as int];
    } else {
      Modular.DivMonotone(ratio, pos + 1, ratio);
      Modular.DivModUnique(ratio, ratio, 1, 0);
      assert idx == Range(win, win + n);
      GatherNamed(mem, idx, mem[win..], []);
      GatherEmpty(mem);
      assert idx + [] == idx && mem[win..] + [] == mem[win..];
    }
  }

  // ---------------------------------------------------------------------------
  // The cache
  // ---------------------------------------------------------------------------

  /** The compressor state and row count agree with the stream so far. */
  ghost predicate CompHolds(c: C.Config, pool: C.Pool, rotate: Rotate, comp: seq<Vec>, st: C.State, items: seq<Item>)
    requires ItemsOk(c, items)
  {
    comp == CompRows(c, pool, rotate, items)
    && (c.ratio > 0 ==> C.Ready(c, ToksOf(items), |items|, st))
  }

  lemma ItemsGrow(c: C.Config, items: seq<Item>, item: Item)
    requires ItemsOk(c, items) && ItemsOk(c, [item])
    ensures ItemsOk(c, items + [item])
    ensures ToksOf(items + [item]) == ToksOf(items) + [item.tok]
    ensures c.ratio > 0 ==> C.Shaped(c, [item.tok])
  {
    assert ToksOf([item]) == [item.tok];
    assert ToksOf(items + [item]) == ToksOf(items) + [item.tok];
    if c.ratio > 0 {
      assert [item.tok][0] == item.tok;
    }
  }

  lemma ReadyExtends(c: C.Config, toks: seq<C.Token>, tok: C.Token, st: C.State)
    requires c.Valid() && C.Shaped(c, toks) && C.Shaped(c, toks + [tok]) && C.Ready(c, toks, |toks|, st)
    ensures C.Ready(c, toks + [tok], |toks|, st)
  {
    var g, r := |toks| / c.ratio, |toks| % c.ratio;
    hide C.Biased;
    RowsExtend(c, toks, tok, g * c.ratio, r, st, if c.Overlap() then c.ratio else 0);
    if c.Overlap() && g > 0 {
      RowsExtend(c, toks, tok, (g - 1) * c.ratio, c.ratio, st, 0);
    }
    hide C.OpenRows;
  }

  lemma RowsExtend(c: C.Config, toks: seq<C.Token>, tok: C.Token, base: int, count: nat, st: C.State, at: nat)
    requires c.Valid() && C.Shaped(c, toks) && C.Shaped(c, toks + [tok]) && C.OpenRows(c, toks, base, count, st, at)
    ensures C.OpenRows(c, toks + [tok], base, count, st, at)
  {
    hide C.Biased, C.Shaped;
    forall j | 0 <= j < count ensures C.RowHolds(c, toks + [tok], base, st, at, j) {
      assert C.RowHolds(c, toks, base, st, at, j);
    }
  }

  lemma ReadyShaped(c: C.Config, toks: seq<C.Token>, n: nat, st: C.State)
    requires c.Valid() && C.Shaped(c, toks) && n <= |toks| && C.Ready(c, toks, n, st)
    ensures C.StateShaped(c, st)
  {
  }

  /** One compressor step keeps the compressed rows those of the stream. */
  lemma CompStep(c: C.Config, pool: C.Pool, rotate: Rotate, comp: seq<Vec>, st: C.State, items: seq<Item>, item: Item)
    requires ItemsOk(c, items) && ItemsOk(c, [item]) && c.ratio > 0 && c.Valid()
    requires CompHolds(c, pool, rotate, comp, st, items)
    ensures C.StateShaped(c, st) && C.Shaped(c, [item.tok]) && ItemsOk(c, items + [item])
    ensures var (row, st') := C.DecodeStep(c, pool, item.tok, |items|, st);
      && (row.Some? ==> |items| + 1 >= c.ratio)
      && CompHolds(c, pool, rotate, comp +
          (if row.Some? then [rotate(row.value, |items| + 1 - c.ratio)] else []), st', items + [item])
  {
    hide C.Row, C.DecodeStep, C.Ready, C.Shaped, C.StateShaped, C.Rows, CompRows;
    var n, toks, toks' := |items|, ToksOf(items), ToksOf(items + [item]);
    ReadyShaped(c, toks, n, st);
    ItemsGrow(c, items, item);
    ReadyExtends(c, toks, item.tok, st);
    C.StepReady(c, pool, toks', n, st);
    var (row, st') := C.DecodeStep(c, pool, item.tok, n, st);
    CompRowsPrefix(c, pool, rotate, items + [item], n);
    assert (items + [item])[..n] == items;
    var g := n / c.ratio;
    Modular.NextDivMod(n, c.ratio);
    if row.Some? {
      C.RowsGrow(c, pool, toks', g);
      assert n == g * c.ratio + n % c.ratio;
      assert n + 1 - c.ratio == g * c.ratio;
      NewGroup(c, pool, rotate, items, item, g);
    } else {
      NoNewGroup(c, pool, rotate, items, item);
    }
  }

  lemma NewGroup(c: C.Config, pool: C.Pool, rotate: Rotate, items: seq<Item>, item: Item, g: nat)
    requires c.ratio > 0 && c.Valid() && ItemsOk(c, items) && ItemsOk(c, items + [item])
    requires g == |items| / c.ratio && (|items| + 1) / c.ratio == g + 1
    requires (g + 1) * c.ratio <= |items| + 1
    requires CompRows(c, pool, rotate, items) <= CompRows(c, pool, rotate, items + [item])
    requires C.Rows(c, pool, ToksOf(items + [item]), g + 1) ==
      C.Rows(c, pool, ToksOf(items + [item]), g) + [C.Row(c, pool, ToksOf(items + [item]), g)]
    ensures CompRows(c, pool, rotate, items + [item])
         == CompRows(c, pool, rotate, items) + [rotate(C.Row(c, pool, ToksOf(items + [item]), g), g * c.ratio)]
  {
    hide C.Row, C.Rows;
    var a, b := CompRows(c, pool, rotate, items), CompRows(c, pool, rotate, items + [item]);
    assert b[g] == rotate(C.Row(c, pool, ToksOf(items + [item]), g), g * c.ratio);
    assert b == b[..g] + [b[g]];
    assert b[..g] == a;
  }

  lemma NoNewGroup(c: C.Config, pool: C.Pool, rotate: Rotate, items: seq<Item>, item: Item)
    requires c.ratio > 0 && ItemsOk(c, items) && ItemsOk(c, items + [item])
    requires (|items| + 1) / c.ratio == |items| / c.ratio
    requires CompRows(c, pool, rotate, items) <= CompRows(c, pool, rotate, items + [item])
    ensures CompRows(c, pool, rotate, items + [item]) == CompRows(c, pool, rotate, items)
  {
  }

  /** What decode gathers from the ring and the compressed rows, when both are those of the stream. */
  lemma DecodeGathers(win: nat, c: C.Config, pool: C.Pool, rotate: Rotate, mem: seq<Vec>, items: seq<Item>)
    requires 1 <= win <= |mem| && |items| > 0 && ItemsOk(c, items) && RingHolds(win, mem, items)
    requires |mem| == win + if c.ratio > 0 then |items| / c.ratio else 0
    ensures var idx := WindowTopk(win, 1, |items| - 1, 0) + if c.ratio > 0
      then CompressTopk(c.ratio, 1, |items| - 1, win, 0) else [];
      && (Gather(mem, idx).None? <==> 1 < |items| < c.ratio)
      && (Gather(mem, idx).Some? && mem[win..] == CompRows(c, pool, rotate, items) ==>
            Gather(mem, idx).value == Attended(win, c, pool, rotate, items))
      && (Gather(mem, idx).Some? ==> Gather(mem, idx).value == RowsOf(items)[WindowLo(win, |items|)..] + mem[win..])
  {
    var pos := |items| - 1;
    hide CompRows, Gather;
    if c.ratio > 0 {
      var rest := CompressTopk(c.ratio, 1, pos, win, 0);
      DecodeGroups(mem, win, c.ratio, pos);
      DecodeWindow(win, mem, items, rest);
    } else {
      GatherEmpty(mem);
      DecodeWindow(win, mem, items, []);
      assert mem[win..] == [];
    }
  }

  /** Sizes, row count, compressor shape and ring after the given tokens. */
  ghost predicate Inv(win: nat, c: C.Config, maxSeq: nat, mem: seq<Vec>, nComp: nat, cmp: C.State, items: seq<Item>) {
    && 1 <= win && ItemsOk(c, items) && |items| <= maxSeq
    && |mem| == win + Cap(c, maxSeq)
    && nComp == Groups(c, |items|) && nComp <= Cap(c, maxSeq)
    && (c.ratio > 0 ==> c.Valid() && C.StateShaped(c, cmp))
    && RingHolds(win, mem, items)
  }

  function Groups(c: C.Config, n: nat): nat { if c.ratio > 0 then n / c.ratio else 0 }

  function Cap(c: C.Config, maxSeq: nat): nat { if c.ratio > 0 then maxSeq / c.ratio + 1 else 0 }

  lemma GroupsFit(c: C.Config, n: nat, maxSeq: nat)
    requires n <= maxSeq
    ensures c.ratio > 0 ==> Groups(c, n) < Cap(c, maxSeq)
    ensures Groups(c, n) <= Cap(c, maxSeq)
  {
    if c.ratio > 0 { Modular.DivMonotone(n, maxSeq, c.ratio); }
  }

  lemma PrefillInv(win: nat, c: C.Config, pool: C.Pool, maxSeq: nat, mem: seq<Vec>, nComp: nat, items: seq<Item>)
    requires 1 <= win && (c.ratio > 0 ==> c.Valid()) && ItemsOk(c, items) && |items| <= maxSeq
    requires |mem| == win + Cap(c, maxSeq) && nComp == Groups(c, |items|)
    requires |items| <= win ==> mem[..|items|] == RowsOf(items)
    requires |items| > win ==> mem[..win] == PrefillRing(win, RowsOf(items))
    ensures Inv(win, c, maxSeq, mem, nComp, if c.ratio > 0 then C.Prefill(c, pool, ToksOf(items)).1
        else C.State([], []), items)
  {
    PrefillRingHolds(win, mem, items);
    GroupsFit(c, |items|, maxSeq);
    if c.ratio > 0 { C.PrefillShaped(c, pool, ToksOf(items)); }
  }

  lemma PrefillFaithful(c: C.Config, pool: C.Pool, rotate: Rotate, items: seq<Item>)
    requires c.ratio > 0 && c.Valid() && ItemsOk(c, items) && (|items| == 0 || |items| >= c.ratio)
    ensures CompHolds(c, pool, rotate, CompRows(c, pool, rotate, items), C.Prefill(c, pool, ToksOf(items)).1, items)
  {
    assert ToksOf(items)[..|items|] == ToksOf(items);
    C.PrefillReady(c, pool, ToksOf(items), |items|);
    hide CompRows, C.Prefill, C.Ready;
  }

  /** Memory, row count and compressor state after one decoded token. */
  function Stepped(win: nat, c: C.Config, pool: C.Pool, rotate: Rotate, mem: seq<Vec>, nComp: nat, cmp: C.State,
                   item: Item, pos: nat)
    : (seq<Vec>, nat, C.State)
    requires 1 <= win <= |mem| &&
      (c.ratio > 0 ==> c.Valid() && C.StateShaped(c, cmp) && C.Shaped(c, [item.tok]) && win + nComp < |mem|)
  {
    var ring := mem[pos % win := item.row];
    if c.ratio == 0 then (ring, nComp, cmp)
    else
      StepCounts(c, pool, item.tok, pos, cmp);
      var (row, st') := C.DecodeStep(c, pool, item.tok, pos, cmp);
      if row.None? then (ring, nComp, st')
      else (ring[win + nComp := rotate(row.value, pos + 1 - c.ratio)], nComp + 1, st')
  }

  lemma SteppedInv(win: nat, c: C.Config, pool: C.Pool, rotate: Rotate, maxSeq: nat, mem: seq<Vec>, nComp: nat,
                   cmp: C.State, items: seq<Item>, item: Item)
    requires Inv(win, c, maxSeq, mem, nComp, cmp, items) && ItemsOk(c, [item]) && |items| < maxSeq
    ensures c.ratio > 0 ==> C.Shaped(c, [item.tok]) && win + nComp < |mem|
    ensures var (mem', n', cmp') := Stepped(win, c, pool, rotate, mem, nComp, cmp, item, |items|);
      Inv(win, c, maxSeq, mem', n', cmp', items + [item])
  {
    var pos := |items|;
    ItemsGrow(c, items, item);
    GroupsFit(c, pos, maxSeq);
    GroupsFit(c, pos + 1, maxSeq);
    RingWrite(win, mem, items, item);
    hide RingHolds, ItemsOk, C.Shaped, C.StateShaped, C.DecodeStep;
    if c.ratio > 0 {
      StepCounts(c, pool, item.tok, pos, cmp);
      Modular.NextDivMod(pos, c.ratio);
      var ring := mem[pos % win := item.row];
      var (mem', n', cmp') := Stepped(win, c, pool, rotate, mem, nComp, cmp, item, pos);
      assert mem'[..win] == ring[..win];
      RingKeeps(win, ring, mem', items + [item]);
    }
  }

  lemma SteppedFaithful(win: nat, c: C.Config, pool: C.Pool, rotate: Rotate, maxSeq: nat, mem: seq<Vec>, nComp: nat,
                        cmp: C.State, items: seq<Item>, item: Item)
    requires Inv(win, c, maxSeq, mem, nComp, cmp, items) && ItemsOk(c, [item]) && |items| < maxSeq
    requires CompHolds(c, pool, rotate, mem[win..win + nComp], cmp, items)
    ensures c.ratio > 0 ==> C.Shaped(c, [item.tok]) && win + nComp < |mem|
    ensures ItemsOk(c, items + [item])
    ensures var (mem', n', cmp') := Stepped(win, c, pool, rotate, mem, nComp, cmp, item, |items|);
      win + n' <= |mem'| && CompHolds(c, pool, rotate, mem'[win..win + n'], cmp', items + [item])
  {
    hide RingHolds, C.Shaped, C.StateShaped, C.DecodeStep, CompHolds;
    SteppedInv(win, c, pool, rotate, maxSeq, mem, nComp, cmp, items, item);
    ItemsGrow(c, items, item);
    var pos := |items|;
    var (mem', n', cmp') := Stepped(win, c, pool, rotate, mem, nComp, cmp, item, pos);
    var comp := mem[win..win + nComp];
    if c.ratio > 0 {
      CompStep(c, pool, rotate, comp, cmp, items, item);
      StepCounts(c, pool, item.tok, pos, cmp);
      var (row, st') := C.DecodeStep(c, pool, item.tok, pos, cmp);
      assert mem'[win..win + n'] == comp + if row.Some? then [rotate(row.value, pos + 1 - c.ratio)] else [];
    } else {
      assert mem'[win..win + n'] == [] == comp;
      PlainHolds(c, pool, rotate, comp, cmp, items, items + [item]);
    }
  }

  lemma PlainHolds(c: C.Config, pool: C.Pool, rotate: Rotate, comp: seq<Vec>, st: C.State, items: seq<Item>,
                   items': seq<Item>)
    requires c.ratio == 0 && ItemsOk(c, items) && ItemsOk(c, items') && CompHolds(c, pool, rotate, comp, st, items)
    ensures CompHolds(c, pool, rotate, comp, st, items')
  {
  }

  class LayerKV {
    const win: nat
    const c: C.Config
    const pool: C.Pool
    const rotate: Rotate
    const maxSeq: nat
    const kv: array<Vec>
    var nComp: nat
    var cmp: C.State
    ghost var seen: seq<Item>

    ghost predicate Valid()
      reads this, kv
    {
      Inv(win, c, maxSeq, kv[..], nComp, cmp, seen)
    }

    /** The compressed rows written so far. */
    ghost function Comp(): seq<Vec>
      reads this, kv
      requires Valid()
    {
      kv[win..win + nComp]
    }

    /** The compressed part is that of the whole stream, and decoding will keep it so. */
    ghost predicate Faithful()
      reads this, kv
      requires Valid()
    {
      CompHolds(c, pool, rotate, Comp(), cmp, seen)
    }

    /** Prefill: fill the ring with the last rows, write the compressed rows, leave the compressor state. */
    constructor Prefill(win: nat, c: C.Config, pool: C.Pool, rotate: Rotate, maxSeq: nat, items: seq<Item>)
      requires 1 <= win && (c.ratio > 0 ==> c.Valid()) && ItemsOk(c, items) && |items| <= maxSeq
      ensures Valid() && fresh(kv) && seen == items
      ensures this.win == win && this.c == c && this.pool == pool && this.rotate == rotate && this.maxSeq == maxSeq
      ensures kv.Length == win + if c.ratio > 0 then maxSeq / c.ratio + 1 else 0
      ensures Comp() == CompRows(c, pool, rotate, items)
      ensures c.ratio == 0 || |items| == 0 || |items| >= c.ratio ==> Faithful()
    {
      hide CompRows, C.Prefill, C.Shaped, C.StateShaped, C.Ready, RingHolds;
      GroupsFit(c, |items|, maxSeq);
      this.win, this.c, this.pool, this.rotate, this.maxSeq := win, c, pool, rotate, maxSeq;
      this.kv := new Vec[win + Cap(c, maxSeq)](i => []);
      this.seen := items;
      this.nComp := Groups(c, |items|);
      this.cmp := if c.ratio > 0 then C.Prefill(c, pool, ToksOf(items)).1 else C.State([], []);
      new;
      var rows := RowsOf(items);
      var comp := CompRows(c, pool, rotate, items);
      WriteAt(0, if |items| <= win then rows else PrefillRing(win, rows));
      ghost var ring := kv[..];
      WriteAt(win, comp);
      assert kv[..win] == ring[..win];
      assert |items| <= win ==> kv[..|items|] == ring[..|items|];
      PrefillInv(win, c, pool, maxSeq, kv[..], nComp, items);
      assert kv[win..win + nComp] == comp;
      if c.ratio > 0 && (|items| == 0 || |items| >= c.ratio) {
        PrefillFaithful(c, pool, rotate, items);
      }
    }

    /** Assign consecutive rows of the cache. */
    method WriteAt(at: nat, rows: seq<Vec>)
      requires at + |rows| <= kv.Length
      modifies kv
      ensures kv[..] == old(kv[..at]) + rows + old(kv[at + |rows|..])
    {
      forall i | 0 <= i < |rows| { kv[at + i] := rows[i]; }
    }

    /**
     * One token: write its ring slot, step the compressor, append the row of a group it
     * completes, and gather what attention sees. A layer whose first group is still open
     * names a compressed row that does not exist, except at position 0.
     */
    method Decode(item: Item, pos: nat) returns (gathered: Option<seq<Vec>>)
      requires Valid() && ItemsOk(c, [item]) && pos == |seen| < maxSeq
      modifies this, kv
      ensures Valid() && seen == old(seen) + [item]
      ensures old(Faithful()) ==> Faithful()
      ensures gathered.None? <==> 1 < |seen| < c.ratio
      ensures gathered.Some? ==> gathered.value == RowsOf(seen)[WindowLo(win, |seen|)..] + Comp()
      ensures gathered.Some? && old(Faithful()) ==> gathered.value == Attended(win, c, pool, rotate, seen)
    {
      ghost var mem0, n0, st0, items := kv[..], nComp, cmp, seen;
      SteppedInv(win, c, pool, rotate, maxSeq, mem0, n0, st0, items, item);
      if CompHolds(c, pool, rotate, mem0[win..win + n0], st0, items) {
        SteppedFaithful(win, c, pool, rotate, maxSeq, mem0, n0, st0, items, item);
      }
      hide CompHolds, RingHolds, ItemsOk, C.Shaped, C.StateShaped, Stepped, RowsOf, CompRows;
      WriteToken(item, pos);
      seen := seen + [item];
      gathered := Attend(pos);
    }

    /** Write the token's slot and step the compressor. */
    method WriteToken(item: Item, pos: nat)
      requires Valid() && ItemsOk(c, [item]) && pos == |seen| < maxSeq
      requires c.ratio > 0 ==> c.Valid() && C.StateShaped(c, cmp) && C.Shaped(c, [item.tok]) && win + nComp < kv.Length
      modifies this`nComp, this`cmp, kv
      ensures (kv[..], nComp, cmp) == Stepped(win, c, pool, rotate, old(kv[..]), old(nComp), old(cmp), item, pos)
    {
      hide C.DecodeStep, RingHolds, ItemsOk, C.Shaped, C.StateShaped;
      ghost var mem0 := kv[..];
      kv[pos % win] := item.row;
      assert kv[..] == mem0[pos % win := item.row];
      if c.ratio > 0 {
        StepCounts(c, pool, item.tok, pos, cmp);
        var (row, st') := C.DecodeStep(c, pool, item.tok, pos, cmp);
        cmp := st';
        if row.Some? {
          kv[win + nComp] := rotate(row.value, pos + 1 - c.ratio);
          nComp := nComp + 1;
        }
      }
    }

    /** Gather the rows that the last token's indices name. */
    method Attend(pos: nat) returns (gathered: Option<seq<Vec>>)
      requires Valid() && pos + 1 == |seen|
      ensures gathered.None? <==> 1 < |seen| < c.ratio
      ensures gathered.Some? ==> gathered.value == RowsOf(seen)[WindowLo(win, |seen|)..] + Comp()
      ensures gathered.Some? && Faithful() ==> gathered.value == Attended(win, c, pool, rotate, seen)
    {
      var rows := kv[..win + nComp];
      assert rows[win..] == Comp() && rows[..win] == kv[..][..win];
      RingKeeps(win, kv[..], rows, seen);
      CompIs(c, pool, rotate, Comp(), cmp, seen);
      DecodeGathers(win, c, pool, rotate, rows, seen);
      hide CompHolds, RingHolds, ItemsOk, C.Shaped, C.StateShaped, CompRows, Attended, WindowTopk,
        CompressTopk, Gather, RowsOf;
      gathered := Gather(rows, WindowTopk(win, 1, pos, 0) + if c.ratio > 0 then CompressTopk(c.ratio, 1, pos, win, 0)
          else []);
    }
  }

  lemma CompIs(c: C.Config, pool: C.Pool, rotate: Rotate, comp: seq<Vec>, st: C.State, items: seq<Item>)
    requires ItemsOk(c, items)
    ensures CompHolds(c, pool, rotate, comp, st, items) ==> comp == CompRows(c, pool, rotate, items)
  {
  }

  lemma StepCounts(c: C.Config, pool: C.Pool, tok: C.Token, pos: nat, st: C.State)
    requires c.Valid() && C.StateShaped(c, st) && C.Shaped(c, [tok])
    ensures var (row, st') := C.DecodeStep(c, pool, tok, pos, st);
      && C.StateShaped(c, st')
      && (row.Some? <==> (pos + 1) % c.ratio == 0)
      && (row.Some? ==> pos + 1 >= c.ratio)
  {
    C.DecodeShaped(c, pool, tok, pos, st);
    if pos + 1 < c.ratio {
      Modular.DivModUnique(pos + 1, c.ratio, 0, pos + 1);
    }
  }

  lemma RingKeeps(win: nat, mem: seq<Vec>, mem': seq<Vec>, items: seq<Item>)
    requires 1 <= win <= |mem| && win <= |mem'| && mem'[..win] == mem[..win]
    requires RingHolds(win, mem, items)
    ensures RingHolds(win, mem', items)
  {
    forall p: nat | WindowLo(win, |items|) <= p < |items| ensures SlotHolds(win, mem', items, p) {
      assert SlotHolds(win, mem, items, p);
      assert mem'[p % win] == mem'[..win][p % win] == mem[..win][p % win];
    }
  }
}
