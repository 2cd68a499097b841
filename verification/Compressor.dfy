/** Gated pooling of KV rows, one row per `ratio` tokens: a whole prompt at once, and token by
    token. The softmax pooling of a window of rows is a parameter `pool`. */
module Compressor {
  import opened Prelude
  import Modular
  import opened Sums

  type Vec = seq<real>

  /** A score is minus infinity until a token has been written. */
  datatype Score = NegInf | Fin(v: real)

  type Pool = (seq<Vec>, seq<seq<Score>>) -> Vec

  /** `ratio == 4` uses the overlap layout: two halves per row, and the previous group's first half. */
  datatype Config = Config(ratio: nat, d: nat, ape: seq<Vec>) {
    predicate Overlap() { ratio == 4 }

    function Coff(): nat { if Overlap() then 2 else 1 }

    function Width(): nat { Coff() * d }

    ghost predicate Valid() {
      1 <= ratio && |ape| >= ratio && forall j :: 0 <= j < ratio ==> |ape[j]| == Width()
    }
  }

  datatype Token = Token(kv: Vec, sc: Vec)

  ghost predicate Shaped(c: Config, toks: seq<Token>) {
    forall i :: 0 <= i < |toks| ==> |toks[i].kv| == c.Width() && |toks[i].sc| == c.Width()
  }

  function Biased(sc: Vec, a: Vec): seq<Score>
    requires |sc| == |a|
  {
    seq(|sc|, i requires 0 <= i < |sc| => Fin(sc[i] + a[i]))
  }

  function Zeros(n: nat): Vec { seq(n, i => 0.0) }

  function Masked(n: nat): seq<Score> { seq(n, i => NegInf) }

  datatype State = State(kv: seq<Vec>, sc: seq<seq<Score>>)

  function StateInit(c: Config): State {
    State(seq(c.Coff() * c.ratio, i => Zeros(c.Width())), seq(c.Coff() * c.ratio, i => Masked(c.Width())))
  }

  // ---------------------------------------------------------------------------
  // Batch pooling
  // ---------------------------------------------------------------------------

  /** kv and biased score of the j-th token of group g. */
  function GroupKv(c: Config, toks: seq<Token>, g: nat, j: nat): Vec
    requires j < c.ratio && (g + 1) * c.ratio <= |toks|
  {
    InGroup(c.ratio, |toks|, g, j);
    toks[g * c.ratio + j].kv
  }

  function GroupSc(c: Config, toks: seq<Token>, g: nat, j: nat): seq<Score>
    requires c.Valid() && Shaped(c, toks) && j < c.ratio && (g + 1) * c.ratio <= |toks|
  {
    InGroup(c.ratio, |toks|, g, j);
    Biased(toks[g * c.ratio + j].sc, c.ape[j])
  }

  lemma InGroup(ratio: nat, len: nat, g: nat, j: nat)
    requires j < ratio && (g + 1) * ratio <= len
    ensures g * ratio + j < len
  {
    assert (g + 1) * ratio == g * ratio + ratio;
  }

  /** The rows that group g pools: with overlap, the previous group's first half and its own second half. */
  function WindowKv(c: Config, toks: seq<Token>, g: nat): seq<Vec>
    requires c.Valid() && Shaped(c, toks) && (g + 1) * c.ratio <= |toks|
  {
    if c.Overlap() then
      (if g == 0 then seq(c.ratio, j => Zeros(c.d))
       else (Earlier(c.ratio, g); seq(c.ratio, j requires 0 <= j < c.ratio => GroupKv(c, toks, g - 1, j)[..c.d])))
      + seq(c.ratio, j requires 0 <= j < c.ratio => GroupKv(c, toks, g, j)[c.d..])
    else seq(c.ratio, j requires 0 <= j < c.ratio => GroupKv(c, toks, g, j))
  }

  function WindowSc(c: Config, toks: seq<Token>, g: nat): seq<seq<Score>>
    requires c.Valid() && Shaped(c, toks) && (g + 1) * c.ratio <= |toks|
  {
    if c.Overlap() then
      (if g == 0 then seq(c.ratio, j => Masked(c.d))
       else (Earlier(c.ratio, g); seq(c.ratio, j requires 0 <= j < c.ratio => GroupSc(c, toks, g - 1, j)[..c.d])))
      + seq(c.ratio, j requires 0 <= j < c.ratio => GroupSc(c, toks, g, j)[c.d..])
    else seq(c.ratio, j requires 0 <= j < c.ratio => GroupSc(c, toks, g, j))
  }

  lemma Earlier(ratio: nat, g: nat)
    requires g > 0
    ensures (g - 1 + 1) * ratio <= (g + 1) * ratio
  {
    Modular.MulMonotone(g, g + 1, ratio);
  }

  /** The compressed row of group g. */
  function Row(c: Config, pool: Pool, toks: seq<Token>, g: nat): Vec
    requires c.Valid() && Shaped(c, toks) && (g + 1) * c.ratio <= |toks|
  {
    pool(WindowKv(c, toks, g), WindowSc(c, toks, g))
  }

  lemma GroupFits(c: Config, len: nat, g: nat)
    requires 1 <= c.ratio && g < len / c.ratio
    ensures (g + 1) * c.ratio <= len
  {
    assert len == (len / c.ratio) * c.ratio + len % c.ratio;
    Modular.MulMonotone(g + 1, len / c.ratio, c.ratio);
  }

  /** The compressed rows of the first n groups. */
  function Rows(c: Config, pool: Pool, toks: seq<Token>, n: nat): (rows: seq<Vec>)
    requires c.Valid() && Shaped(c, toks) && n <= |toks| / c.ratio
    ensures |rows| == n
  {
    seq(n, g requires 0 <= g < n => (GroupFits(c, |toks|, g); Row(c, pool, toks, g)))
  }

  /** Writing tokens into consecutive state rows. */
  function WriteRows(c: Config, st: State, at: nat, toks: seq<Token>): State
    requires c.Valid() && Shaped(c, toks) && |toks| <= c.ratio
    requires |st.kv| == |st.sc| && at + |toks| <= |st.kv|
  {
    State(st.kv[..at] + seq(|toks|, j requires 0 <= j < |toks| => toks[j].kv) + st.kv[at + |toks|..],
          st.sc[..at] + seq(|toks|, j requires 0 <= j < |toks| => Biased(toks[j].sc, c.ape[j])) + st.sc[at + |toks|..])
  }

  /** The decode state after a prompt whose full groups cover the first `used` tokens. */
  function StateFromTail(c: Config, toks: seq<Token>, used: nat): State
    requires c.Valid() && Shaped(c, toks) && c.ratio <= used <= |toks| < used + c.ratio
  {
    var rem := |toks| - used;
    var st := StateInit(c);
    if rem == 0 then WriteRows(c, st, 0, toks[used - c.ratio..used])
    else
      var seeded := if c.Overlap() then WriteRows(c, st, 0, toks[used - c.ratio..used]) else st;
      WriteRows(c, seeded, if c.Overlap() then c.ratio else 0, toks[used..])
  }

  lemma TailSizes(c: Config, len: nat)
    requires 1 <= c.ratio <= len
    ensures var used := (len / c.ratio) * c.ratio;
      c.ratio <= used <= len && len - used < c.ratio && len - used == len % c.ratio
  {
    assert len == (len / c.ratio) * c.ratio + len % c.ratio;
    Modular.MulMonotone(1, len / c.ratio, c.ratio);
  }

  /** A prompt shorter than one group yields no row and an empty state: its tokens are dropped. */
  function Prefill(c: Config, pool: Pool, toks: seq<Token>): (seq<Vec>, State)
    requires c.Valid() && Shaped(c, toks)
  {
    var n := |toks| / c.ratio;
    if n <= 0 then ([], StateInit(c))
    else (TailSizes(c, |toks|); (Rows(c, pool, toks, n), StateFromTail(c, toks, n * c.ratio)))
  }

  // ---------------------------------------------------------------------------
  // Token by token
  // ---------------------------------------------------------------------------

  ghost predicate StateShaped(c: Config, st: State) {
    && |st.kv| == |st.sc| == c.Coff() * c.ratio
    && (forall i :: 0 <= i < |st.kv| ==> |st.kv[i]| == c.Width())
    && (forall i :: 0 <= i < |st.sc| ==> |st.sc[i]| == c.Width())
  }

  /** Write the token into its row of the state (a copy); a full group is pooled and the state rolls over. */
  function DecodeStep(c: Config, pool: Pool, tok: Token, pos: nat, st: State): (r: (Option<Vec>, State))
    requires c.Valid() && StateShaped(c, st) && Shaped(c, [tok])
  {
    assert |[tok][0].kv| == c.Width();
    var j := pos % c.ratio;
    var off := if c.Overlap() then c.ratio else 0;
    var kv := st.kv[off + j := tok.kv];
    var sc := st.sc[off + j := Biased(tok.sc, c.ape[j])];
    if (pos + 1) % c.ratio != 0 then (None, State(kv, sc))
    else if c.Overlap() then
      var a := seq(c.ratio, i requires 0 <= i < c.ratio => kv[i][..c.d]) +
        seq(c.ratio, i requires 0 <= i < c.ratio => kv[c.ratio + i][c.d..]);
      var b := seq(c.ratio, i requires 0 <= i < c.ratio => sc[i][..c.d]) +
        seq(c.ratio, i requires 0 <= i < c.ratio => sc[c.ratio + i][c.d..]);
      (Some(pool(a, b)),
       State(kv[c.ratio..] + seq(c.ratio, i => Zeros(c.Width())), sc[c.ratio..] + seq(c.ratio, i => Masked(c.Width()))))
    else
      (Some(pool(kv, sc)), StateInit(c))
  }

  // ---------------------------------------------------------------------------
  // The simulation
  // ---------------------------------------------------------------------------

  /**
   * What the state must hold once n tokens of the stream are in: the rows of the open
   * group and, with overlap, the previous group. Rows not yet written are unconstrained.
   */
  ghost predicate Ready(c: Config, toks: seq<Token>, n: nat, st: State)
    requires c.Valid() && Shaped(c, toks) && n <= |toks|
  {
    StateShaped(c, st) && ReadyAt(c, toks, n / c.ratio, n % c.ratio, st)
  }

  /** r tokens of group g are in. */
  ghost predicate ReadyAt(c: Config, toks: seq<Token>, g: nat, r: nat, st: State)
    requires c.Valid() && Shaped(c, toks)
  {
    && OpenRows(c, toks, g * c.ratio, r, st, if c.Overlap() then c.ratio else 0)
    && (c.Overlap() ==>
          if g == 0 then forall j :: 0 <= j < c.ratio ==>
              j < |st.kv| && j < |st.sc| && st.kv[j] == Zeros(c.Width()) && st.sc[j] == Masked(c.Width())
          else OpenRows(c, toks, (g - 1) * c.ratio, c.ratio, st, 0))
  }

  /** State rows at .. at+count-1 hold the tokens base .. base+count-1 of the stream. */
  ghost predicate OpenRows(c: Config, toks: seq<Token>, base: int, count: nat, st: State, at: nat)
    requires c.Valid() && Shaped(c, toks)
  {
    count <= c.ratio && forall j :: 0 <= j < count ==> RowHolds(c, toks, base, st, at, j)
  }

  ghost predicate RowHolds(c: Config, toks: seq<Token>, base: int, st: State, at: nat, j: nat)
    requires c.Valid() && Shaped(c, toks) && j < c.ratio
  {
    && 0 <= base && base + j < |toks| && at + j < |st.kv| && at + j < |st.sc|
    && st.kv[at + j] == toks[base + j].kv && st.sc[at + j] == Biased(toks[base + j].sc, c.ape[j])
  }

  lemma InitReady(c: Config, toks: seq<Token>)
    requires c.Valid() && Shaped(c, toks)
    ensures Ready(c, toks, 0, StateInit(c))
  {
    assert 0 / c.ratio == 0 && 0 % c.ratio == 0;
  }

  /** The state with the token written into its row. */
  function Written(c: Config, tok: Token, j: nat, st: State): State
    requires c.Valid() && StateShaped(c, st) && Shaped(c, [tok]) && j < c.ratio
  {
    assert |[tok][0].sc| == c.Width();
    var at := (if c.Overlap() then c.ratio else 0) + j;
    State(st.kv[at := tok.kv], st.sc[at := Biased(tok.sc, c.ape[j])])
  }

  lemma WrittenRows(c: Config, toks: seq<Token>, g: nat, r: nat, st: State)
    requires c.Valid() && Shaped(c, toks) && StateShaped(c, st) && r < c.ratio && g * c.ratio + r < |toks|
    requires Shaped(c, [toks[g * c.ratio + r]])
    requires OpenRows(c, toks, g * c.ratio, r, st, if c.Overlap() then c.ratio else 0)
    ensures var st' := Written(c, toks[g * c.ratio + r], r, st);
      && StateShaped(c, st')
      && OpenRows(c, toks, g * c.ratio, r + 1, st', if c.Overlap() then c.ratio else 0)
      && (c.Overlap() ==> forall j :: 0 <= j < c.ratio ==> st'.kv[j] == st.kv[j] && st'.sc[j] == st.sc[j])
  {
    hide Biased;
    var st' := Written(c, toks[g * c.ratio + r], r, st);
    assert |[toks[g * c.ratio + r]][0].kv| == c.Width();
    forall i | 0 <= i < |st'.sc| ensures |st'.sc[i]| == c.Width() { BiasedWidth(c, toks[g * c.ratio + r], r); }
    var base, at := g * c.ratio, if c.Overlap() then c.ratio else 0;
    forall j | 0 <= j < r + 1 ensures RowHolds(c, toks, base, st', at, j) {
      if j < r { assert RowHolds(c, toks, base, st, at, j); }
    }
  }

  lemma BiasedWidth(c: Config, tok: Token, j: nat)
    requires c.Valid() && |tok.sc| == c.Width() && j < c.ratio
    ensures |Biased(tok.sc, c.ape[j])| == c.Width()
  {
  }

  /** With the group's rows written, the pooled rows are the group's window. */
  lemma PooledWindow(c: Config, toks: seq<Token>, g: nat, st: State)
    requires c.Valid() && Shaped(c, toks) && StateShaped(c, st) && c.Overlap() && (g + 1) * c.ratio <= |toks|
    requires OpenRows(c, toks, g * c.ratio, c.ratio, st, c.ratio)
    requires g == 0 ==> forall j :: 0 <= j < c.ratio ==> st.kv[j] == Zeros(c.Width()) && st.sc[j] == Masked(c.Width())
    requires g > 0 ==> OpenRows(c, toks, (g - 1) * c.ratio, c.ratio, st, 0)
    ensures seq(c.ratio, i requires 0 <= i < c.ratio => st.kv[i][..c.d]) +
      seq(c.ratio, i requires 0 <= i < c.ratio => st.kv[c.ratio + i][c.d..])
         == WindowKv(c, toks, g)
    ensures seq(c.ratio, i requires 0 <= i < c.ratio => st.sc[i][..c.d]) +
      seq(c.ratio, i requires 0 <= i < c.ratio => st.sc[c.ratio + i][c.d..])
         == WindowSc(c, toks, g)
  {
    hide Biased;
    OpenGroup(c, toks, g, st, c.ratio);
    if g == 0 {
      assert Zeros(c.Width())[..c.d] == Zeros(c.d) && Masked(c.Width())[..c.d] == Masked(c.d);
    } else {
      Earlier(c.ratio, g);
      OpenGroup(c, toks, g - 1, st, 0);
    }
  }

  lemma OpenGroup(c: Config, toks: seq<Token>, g: nat, st: State, at: nat)
    requires c.Valid() && Shaped(c, toks) && StateShaped(c, st) && (g + 1) * c.ratio <= |toks|
    requires OpenRows(c, toks, g * c.ratio, c.ratio, st, at) && at + c.ratio <= |st.kv|
    ensures forall j :: 0 <= j < c.ratio ==>
      st.kv[at + j] == GroupKv(c, toks, g, j) && st.sc[at + j] == GroupSc(c, toks, g, j)
  {
    hide Biased;
    var base := g * c.ratio;
    forall j | 0 <= j < c.ratio
      ensures st.kv[at + j] == GroupKv(c, toks, g, j) && st.sc[at + j] == GroupSc(c, toks, g, j)
    {
      assert RowHolds(c, toks, base, st, at, j);
    }
  }

  lemma PooledPlain(c: Config, toks: seq<Token>, g: nat, st: State)
    requires c.Valid() && Shaped(c, toks) && StateShaped(c, st) && !c.Overlap() && (g + 1) * c.ratio <= |toks|
    requires OpenRows(c, toks, g * c.ratio, c.ratio, st, 0)
    ensures st.kv == WindowKv(c, toks, g) && st.sc == WindowSc(c, toks, g)
  {
    hide Biased;
    OpenGroup(c, toks, g, st, 0);
    forall j | 0 <= j < c.ratio ensures st.kv[j] == GroupKv(c, toks, g, j) && st.sc[j] == GroupSc(c, toks, g, j) {
      assert st.kv[0 + j] == GroupKv(c, toks, g, j);
    }
  }

  /** One decode step keeps the simulation and emits exactly the compressed row of a group it completes. */
  lemma StepReady(c: Config, pool: Pool, toks: seq<Token>, n: nat, st: State)
    requires c.Valid() && Shaped(c, toks) && n < |toks| && Ready(c, toks, n, st)
    ensures Shaped(c, [toks[n]])
    ensures var (row, st') := DecodeStep(c, pool, toks[n], n, st);
      && Ready(c, toks, n + 1, st')
      && (row.Some? <==> (n + 1) % c.ratio == 0)
      && (row.Some? ==> (n / c.ratio + 1) * c.ratio <= |toks| && row.value == Row(c, pool, toks, n / c.ratio))
  {
    var g, r := n / c.ratio, n % c.ratio;
    assert n == g * c.ratio + r;
    assert Shaped(c, [toks[n]]);
    Modular.NextDivMod(n, c.ratio);
    WrittenRows(c, toks, g, r, st);
    var mid := Written(c, toks[n], r, st);
    hide Biased, WindowKv, WindowSc, Zeros, Masked, OpenRows, StateShaped;
    if r + 1 == c.ratio {
      assert (g + 1) * c.ratio == g * c.ratio + c.ratio && g + 1 - 1 == g;
      if c.Overlap() {
        KeptPrevious(c, toks, g, st, mid);
        PooledWindow(c, toks, g, mid);
        RolledOver(c, toks, g, mid);
      } else {
        PooledPlain(c, toks, g, mid);
        InitShaped(c);
        NoRows(c, toks, (g + 1) * c.ratio, StateInit(c), 0);
      }
    } else {
      KeptPrevious(c, toks, g, st, mid);
    }
  }

  lemma NoRows(c: Config, toks: seq<Token>, base: int, st: State, at: nat)
    requires c.Valid() && Shaped(c, toks)
    ensures OpenRows(c, toks, base, 0, st, at)
  {
  }

  /** Writing into the open group does not touch the first half of the state. */
  lemma KeptPrevious(c: Config, toks: seq<Token>, g: nat, st: State, st': State)
    requires c.Valid() && Shaped(c, toks) && StateShaped(c, st) && StateShaped(c, st')
    requires c.Overlap() ==> forall j :: 0 <= j < c.ratio ==> st'.kv[j] == st.kv[j] && st'.sc[j] == st.sc[j]
    ensures c.Overlap() && g > 0 && OpenRows(c, toks, (g - 1) * c.ratio, c.ratio, st, 0)
      ==> OpenRows(c, toks, (g - 1) * c.ratio, c.ratio, st', 0)
  {
    if c.Overlap() && g > 0 && OpenRows(c, toks, (g - 1) * c.ratio, c.ratio, st, 0) {
      var base := (g - 1) * c.ratio;
      forall j | 0 <= j < c.ratio ensures RowHolds(c, toks, base, st', 0, j) {
        assert RowHolds(c, toks, base, st, 0, j);
      }
    }
  }

  lemma InitShaped(c: Config)
    requires c.Valid()
    ensures StateShaped(c, StateInit(c))
  {
  }

  lemma RolledOver(c: Config, toks: seq<Token>, g: nat, st: State)
    requires c.Valid() && Shaped(c, toks) && StateShaped(c, st) && c.Overlap()
    requires OpenRows(c, toks, g * c.ratio, c.ratio, st, c.ratio)
    ensures var st' :=
      State(st.kv[c.ratio..] + seq(c.ratio, i => Zeros(c.Width())), st.sc[c.ratio..] +
          seq(c.ratio, i => Masked(c.Width())));
      && StateShaped(c, st') && OpenRows(c, toks, g * c.ratio, c.ratio, st', 0)
      && OpenRows(c, toks, (g + 1) * c.ratio, 0, st', c.ratio)
  {
    hide Biased;
    var st' := State(st.kv[c.ratio..] + seq(c.ratio, i => Zeros(c.Width())), st.sc[c.ratio..] +
        seq(c.ratio, i => Masked(c.Width())));
    var base := g * c.ratio;
    forall j | 0 <= j < c.ratio ensures RowHolds(c, toks, base, st', 0, j) {
      assert RowHolds(c, toks, base, st, c.ratio, j);
    }
  }

  // ---------------------------------------------------------------------------
  // Prefill, then decode
  // ---------------------------------------------------------------------------

  lemma DecodeShaped(c: Config, pool: Pool, tok: Token, pos: nat, st: State)
    requires c.Valid() && StateShaped(c, st) && Shaped(c, [tok])
    ensures StateShaped(c, DecodeStep(c, pool, tok, pos, st).1)
  {
    assert |[tok][0].kv| == c.Width() && |[tok][0].sc| == c.Width();
    BiasedWidth(c, tok, pos % c.ratio);
    hide Biased;
  }

  /** The rows emitted by decoding the stream from token `pos` on. */
  function DecodeAll(c: Config, pool: Pool, toks: seq<Token>, pos: nat, st: State): seq<Vec>
    requires c.Valid() && Shaped(c, toks) && StateShaped(c, st) && pos <= |toks|
    decreases |toks| - pos
  {
    if pos == |toks| then []
    else
      assert Shaped(c, [toks[pos]]);
      DecodeShaped(c, pool, toks[pos], pos, st);
      var (row, st') := DecodeStep(c, pool, toks[pos], pos, st);
      (if row.Some? then [row.value] else []) + DecodeAll(c, pool, toks, pos + 1, st')
  }

  /** From a ready state, decoding emits exactly the rows not yet emitted. */
  lemma {:induction false} DecodeEmits(c: Config, pool: Pool, toks: seq<Token>, n: nat, st: State)
    requires c.Valid() && Shaped(c, toks) && n <= |toks| && Ready(c, toks, n, st)
    ensures n / c.ratio <= |toks| / c.ratio
    ensures Rows(c, pool, toks, n / c.ratio) + DecodeAll(c, pool, toks, n, st) == Rows(c, pool, toks, |toks| / c.ratio)
    decreases |toks| - n
  {
    hide WindowKv, WindowSc, DecodeStep, ReadyAt, Rows, Row, StateShaped;
    if n < |toks| {
      StepReady(c, pool, toks, n, st);
      var (row, st') := DecodeStep(c, pool, toks[n], n, st);
      DecodeEmits(c, pool, toks, n + 1, st');
      Modular.NextDivMod(n, c.ratio);
      var rest := DecodeAll(c, pool, toks, n + 1, st');
      if row.Some? {
        RowsGrow(c, pool, toks, n / c.ratio);
        assert Rows(c, pool, toks, n / c.ratio) + ([row.value] + rest) ==
          (Rows(c, pool, toks, n / c.ratio) + [row.value]) + rest;
      } else {
        assert [] + rest == rest;
      }
    }
  }

  lemma RowsGrow(c: Config, pool: Pool, toks: seq<Token>, g: nat)
    requires c.Valid() && Shaped(c, toks) && g + 1 <= |toks| / c.ratio
    ensures (g + 1) * c.ratio <= |toks|
    ensures Rows(c, pool, toks, g + 1) == Rows(c, pool, toks, g) + [Row(c, pool, toks, g)]
  {
    GroupFits(c, |toks|, g);
    hide Row;
  }

  /** The state that a prefill of S tokens leaves is ready for the rest of the stream. */
  lemma PrefillReady(c: Config, pool: Pool, toks: seq<Token>, S: nat)
    requires c.Valid() && Shaped(c, toks) && S <= |toks| && (S == 0 || S >= c.ratio)
    ensures Ready(c, toks, S, Prefill(c, pool, toks[..S]).1)
  {
    if S == 0 {
      InitReady(c, toks);
      assert 0 / c.ratio == 0;
    } else {
      TailSizes(c, S);
      var n := S / c.ratio;
      assert n * c.ratio - c.ratio == (n - 1) * c.ratio;
      assert n > 0 && |toks[..S]| == S;
      TailReady(c, toks, S, n * c.ratio);
      hide StateInit, Zeros, Masked, Rows, StateFromTail, OpenRows;
    }
  }

  lemma TailReady(c: Config, toks: seq<Token>, S: nat, used: nat)
    requires c.Valid() && Shaped(c, toks) && c.ratio <= used <= S <= |toks| && S < used + c.ratio
    ensures var st := StateFromTail(c, toks[..S], used);
      && StateShaped(c, st)
      && OpenRows(c, toks, used, S - used, st, if c.Overlap() then c.ratio else 0)
      && (c.Overlap() ==> OpenRows(c, toks, used - c.ratio, c.ratio, st, 0))
  {
    var tail, open := toks[..S][used - c.ratio..used], toks[..S][used..];
    InitShaped(c);
    ShapedSlice(c, toks, used - c.ratio, used);
    ShapedSlice(c, toks, used, S);
    assert tail == toks[used - c.ratio..used] && open == toks[used..S];
    hide StateInit, WriteRows, OpenRows, StateShaped, Shaped, Zeros, Masked;
    var init := StateInit(c);
    if S == used {
      WriteRowsHolds(c, init, 0, tail, toks, used - c.ratio);
      NoRows(c, toks, used, WriteRows(c, init, 0, tail), if c.Overlap() then c.ratio else 0);
    } else if c.Overlap() {
      SeededReady(c, init, tail, open, toks, used);
    } else {
      WriteRowsHolds(c, init, 0, open, toks, used);
    }
  }

  lemma SeededReady(c: Config, init: State, tail: seq<Token>, open: seq<Token>, toks: seq<Token>, used: nat)
    requires c.Valid() && Shaped(c, toks) && Shaped(c, tail) && Shaped(c, open) && StateShaped(c, init) && c.Overlap()
    requires c.ratio <= used && |tail| == c.ratio && |open| < c.ratio && used + |open| <= |toks|
    requires tail == toks[used - c.ratio..used] && open == toks[used..used + |open|]
    ensures StateShaped(c, WriteRows(c, init, 0, tail))
    ensures var st := WriteRows(c, WriteRows(c, init, 0, tail), c.ratio, open);
      && StateShaped(c, st)
      && OpenRows(c, toks, used, |open|, st, c.ratio)
      && OpenRows(c, toks, used - c.ratio, c.ratio, st, 0)
  {
    hide WriteRows, OpenRows;
    WriteRowsHolds(c, init, 0, tail, toks, used - c.ratio);
    var seeded := WriteRows(c, init, 0, tail);
    WriteRowsHolds(c, seeded, c.ratio, open, toks, used);
    WriteRowsKeeps(c, seeded, c.ratio, open, toks, used - c.ratio);
  }

  lemma ShapedSlice(c: Config, toks: seq<Token>, lo: nat, hi: nat)
    requires Shaped(c, toks) && lo <= hi <= |toks|
    ensures Shaped(c, toks[lo..hi])
  {
  }

  lemma WriteRowsHolds(c: Config, st: State, at: nat, part: seq<Token>, toks: seq<Token>, base: nat)
    requires c.Valid() && Shaped(c, toks) && Shaped(c, part) && StateShaped(c, st)
    requires |part| <= c.ratio && at + |part| <= |st.kv|
    requires base + |part| <= |toks| && part == toks[base..base + |part|]
    ensures StateShaped(c, WriteRows(c, st, at, part))
    ensures OpenRows(c, toks, base, |part|, WriteRows(c, st, at, part), at)
  {
    var st' := WriteRows(c, st, at, part);
    forall j | 0 <= j < |part|
      ensures |Biased(part[j].sc, c.ape[j])| == c.Width()
    { BiasedWidth(c, part[j], j); }
    hide Biased;
    forall j | 0 <= j < |part| ensures RowHolds(c, toks, base, st', at, j) {
      assert part[j] == toks[base + j];
    }
  }

  lemma WriteRowsKeeps(c: Config, st: State, at: nat, part: seq<Token>, toks: seq<Token>, base: nat)
    requires c.Valid() && Shaped(c, toks) && Shaped(c, part) && StateShaped(c, st)
    requires |part| <= c.ratio <= at && at + |part| <= |st.kv|
    requires OpenRows(c, toks, base, c.ratio, st, 0)
    ensures OpenRows(c, toks, base, c.ratio, WriteRows(c, st, at, part), 0)
  {
    hide Biased;
    forall j | 0 <= j < c.ratio ensures RowHolds(c, toks, base, WriteRows(c, st, at, part), 0, j) {
      assert RowHolds(c, toks, base, st, 0, j);
    }
  }

  /** A row depends only on the tokens up to the end of its group. */
  lemma PrefixRows(c: Config, pool: Pool, toks: seq<Token>, S: nat, n: nat)
    requires c.Valid() && Shaped(c, toks) && S <= |toks| && n <= S / c.ratio
    ensures n <= |toks| / c.ratio && Rows(c, pool, toks[..S], n) == Rows(c, pool, toks, n)
  {
    Modular.DivMonotone(S, |toks|, c.ratio);
    forall g: nat | g < n
      ensures (g + 1) * c.ratio <= S && Row(c, pool, toks[..S], g) == Row(c, pool, toks, g)
    {
      GroupFits(c, S, g);
      PrefixWindow(c, toks, S, g);
    }
    hide Row;
  }

  lemma PrefixWindow(c: Config, toks: seq<Token>, S: nat, g: nat)
    requires c.Valid() && Shaped(c, toks) && S <= |toks| && (g + 1) * c.ratio <= S
    ensures WindowKv(c, toks[..S], g) == WindowKv(c, toks, g) && WindowSc(c, toks[..S], g) == WindowSc(c, toks, g)
  {
    hide Biased;
    PrefixGroup(c, toks, S, g);
    if g > 0 {
      Earlier(c.ratio, g);
      PrefixGroup(c, toks, S, g - 1);
    }
  }

  lemma PrefixGroup(c: Config, toks: seq<Token>, S: nat, g: nat)
    requires c.Valid() && Shaped(c, toks) && S <= |toks| && (g + 1) * c.ratio <= S
    ensures forall j :: 0 <= j < c.ratio ==>
      GroupKv(c, toks[..S], g, j) == GroupKv(c, toks, g, j) && GroupSc(c, toks[..S], g, j) == GroupSc(c, toks, g, j)
  {
    hide Biased;
    forall j | 0 <= j < c.ratio
      ensures GroupKv(c, toks[..S], g, j) == GroupKv(c, toks, g, j) &&
        GroupSc(c, toks[..S], g, j) == GroupSc(c, toks, g, j)
    {
      InGroup(c.ratio, S, g, j);
    }
  }

  // ---------------------------------------------------------------------------
  // What a row pools, from the tokens alone
  // ---------------------------------------------------------------------------

  /** Channels lo .. lo+d-1 of token t, the j-th of its group: its kv, and its score plus the position bias. */
  ghost predicate Channels(c: Config, toks: seq<Token>, t: int, j: nat, lo: nat, kv: Vec, sc: seq<Score>)
    requires c.Valid() && Shaped(c, toks) && 0 <= t < |toks| && j < c.ratio && lo + c.d <= c.Width()
  {
    && |kv| == |sc| == c.d
    && forall i: nat :: i < c.d ==>
         kv[i] == toks[t].kv[lo + i] && sc[i] == Fin(toks[t].sc[lo + i] + c.ape[j][lo + i])
  }

  /** Nothing written: zeros, and a score of minus infinity in every channel. */
  ghost predicate Unwritten(c: Config, kv: Vec, sc: seq<Score>) {
    |kv| == |sc| == c.d && forall i: nat :: i < c.d ==> kv[i] == 0.0 && sc[i] == NegInf
  }

  /**
   * The window of group g: its tokens, or with overlap the first halves of the group before, none
   * before the first group, and then the second halves of its own tokens.
   */
  ghost predicate IsWindow(c: Config, toks: seq<Token>, g: nat, kv: seq<Vec>, sc: seq<seq<Score>>)
    requires c.Valid() && Shaped(c, toks) && (g + 1) * c.ratio <= |toks|
  {
    && |kv| == |sc| == (if c.ratio == 4 then 2 * c.ratio else c.ratio)
    && forall j: nat :: j < c.ratio ==> InWindow(c, toks, g, j, kv, sc)
  }

  ghost predicate InWindow(c: Config, toks: seq<Token>, g: nat, j: nat, kv: seq<Vec>, sc: seq<seq<Score>>)
    requires c.Valid() && Shaped(c, toks) && (g + 1) * c.ratio <= |toks| && j < c.ratio
    requires |kv| == |sc| == (if c.ratio == 4 then 2 * c.ratio else c.ratio)
  {
    InGroup(c.ratio, |toks|, g, j);
    if c.ratio != 4 then Channels(c, toks, g * c.ratio + j, j, 0, kv[j], sc[j])
    else
      && Channels(c, toks, g * c.ratio + j, j, c.d, kv[c.ratio + j], sc[c.ratio + j])
      && (if g == 0 then Unwritten(c, kv[j], sc[j])
          else
            Earlier(c.ratio, g);
            InGroup(c.ratio, |toks|, g - 1, j);
            Channels(c, toks, (g - 1) * c.ratio + j, j, 0, kv[j], sc[j]))
  }

  /** The row is what pooling the window of group g gives. */
  ghost predicate Pools(c: Config, pool: Pool, toks: seq<Token>, g: nat, row: Vec)
    requires c.Valid() && Shaped(c, toks) && (g + 1) * c.ratio <= |toks|
  {
    exists kv, sc :: IsWindow(c, toks, g, kv, sc) && row == pool(kv, sc)
  }

  lemma WindowHolds(c: Config, toks: seq<Token>, g: nat, j: nat)
    requires c.Valid() && Shaped(c, toks) && (g + 1) * c.ratio <= |toks| && j < c.ratio
    ensures |WindowKv(c, toks, g)| == |WindowSc(c, toks, g)| == (if c.ratio == 4 then 2 * c.ratio else c.ratio)
    ensures InWindow(c, toks, g, j, WindowKv(c, toks, g), WindowSc(c, toks, g))
  {
    InGroup(c.ratio, |toks|, g, j);
    BiasedWidth(c, toks[g * c.ratio + j], j);
    var a := GroupSc(c, toks, g, j);
    if g > 0 {
      Earlier(c.ratio, g);
      InGroup(c.ratio, |toks|, g - 1, j);
      BiasedWidth(c, toks[(g - 1) * c.ratio + j], j);
    }
  }

  lemma RowPools(c: Config, pool: Pool, toks: seq<Token>, g: nat)
    requires c.Valid() && Shaped(c, toks) && (g + 1) * c.ratio <= |toks|
    ensures Pools(c, pool, toks, g, Row(c, pool, toks, g))
  {
    hide WindowKv, WindowSc, InWindow;
    WindowHolds(c, toks, g, 0);
    forall j: nat | j < c.ratio ensures InWindow(c, toks, g, j, WindowKv(c, toks, g), WindowSc(c, toks, g)) {
      WindowHolds(c, toks, g, j);
    }
    assert IsWindow(c, toks, g, WindowKv(c, toks, g), WindowSc(c, toks, g));
  }

  /** A row per complete group, each pooling its group's window. */
  ghost predicate PoolsAll(c: Config, pool: Pool, toks: seq<Token>, rows: seq<Vec>)
    requires c.Valid() && Shaped(c, toks)
  {
    |rows| == |toks| / c.ratio && forall g: nat :: g < |rows| ==>
      (g + 1) * c.ratio <= |toks| && Pools(c, pool, toks, g, rows[g])
  }

  /** The rows of a prefill pool the groups of its tokens, in order. */
  lemma PrefillPools(c: Config, pool: Pool, toks: seq<Token>)
    requires c.Valid() && Shaped(c, toks)
    ensures PoolsAll(c, pool, toks, Prefill(c, pool, toks).0)
  {
    var rows := Prefill(c, pool, toks).0;
    forall g: nat | g < |rows| ensures (g + 1) * c.ratio <= |toks| && Pools(c, pool, toks, g, rows[g]) {
      GroupFits(c, |toks|, g);
      RowPools(c, pool, toks, g);
    }
  }

  /** Compressed rows of a prefill of S tokens followed by decoding the rest. */
  function PrefillThenDecode(c: Config, pool: Pool, toks: seq<Token>, S: nat): seq<Vec>
    requires c.Valid() && Shaped(c, toks) && S <= |toks|
  {
    PrefillShaped(c, pool, toks[..S]);
    var (rows, st) := Prefill(c, pool, toks[..S]);
    rows + DecodeAll(c, pool, toks, S, st)
  }

  lemma PrefillShaped(c: Config, pool: Pool, toks: seq<Token>)
    requires c.Valid() && Shaped(c, toks)
    ensures StateShaped(c, Prefill(c, pool, toks).1)
  {
    InitShaped(c);
    if |toks| >= c.ratio {
      assert toks[..|toks|] == toks;
      PrefillReady(c, pool, toks, |toks|);
    } else {
      Modular.DivModUnique(|toks|, c.ratio, 0, |toks|);
    }
  }

  /**
   * Prefilling S tokens and decoding the rest emits the rows of one prefill of the whole stream: one
   * per complete group, each pooling its window of kv and biased scores.
   */
  lemma BatchIsIncremental(c: Config, pool: Pool, toks: seq<Token>, S: nat)
    requires c.Valid() && Shaped(c, toks) && S <= |toks| && (S == 0 || S >= c.ratio)
    ensures PrefillThenDecode(c, pool, toks, S) == Prefill(c, pool, toks).0
    ensures PoolsAll(c, pool, toks, PrefillThenDecode(c, pool, toks, S))
  {
    PrefillPools(c, pool, toks);
    PrefillReady(c, pool, toks, S);
    DecodeEmits(c, pool, toks, S, Prefill(c, pool, toks[..S]).1);
    PrefixRows(c, pool, toks, S, S / c.ratio);
    hide Row, DecodeAll, StateFromTail;
    assert |toks[..S]| == S;
  }

  // ---------------------------------------------------------------------------
  // Where the split shows
  // ---------------------------------------------------------------------------

  /** The weight of row j in channel ch, from the scores of the whole window. */
  type Weights = (seq<seq<Score>>, int, int) -> real

  function Cell(kv: seq<Vec>, j: int, ch: int): real {
    if 0 <= j < |kv| && 0 <= ch < |kv[j]| then kv[j][ch] else 0.0
  }

  function ScoreAt(sc: seq<seq<Score>>, j: int, ch: int): Score {
    if 0 <= j < |sc| && 0 <= ch < |sc[j]| then sc[j][ch] else NegInf
  }

  /** Gated pooling: the sum over the window of kv times its weight, channel by channel. */
  function Pooled(w: Weights): Pool {
    (kv: seq<Vec>, sc: seq<seq<Score>>) => seq(if kv == [] then 0 else |kv[0]|, ch => Channel(w, kv, sc, ch))
  }

  function Channel(w: Weights, kv: seq<Vec>, sc: seq<seq<Score>>, ch: int): real {
    Dot(j => Cell(kv, j, ch), j => w(sc, j, ch), 0, |kv|)
  }

  /** A row counts exactly when its score has been written. */
  ghost predicate Weighs(w: Weights) {
    forall sc, j, ch :: if ScoreAt(sc, j, ch).NegInf? then w(sc, j, ch) == 0.0 else w(sc, j, ch) > 0.0
  }

  /** The largest written score of the first n rows. */
  function Peak(sc: seq<seq<Score>>, ch: int, n: nat): Score {
    if n == 0 then NegInf
    else
      var before, s := Peak(sc, ch, n - 1), ScoreAt(sc, n - 1, ch);
      if s.NegInf? || (before.Fin? && before.v >= s.v) then before else s
  }

  function Exp(exp: real -> real, s: Score, peak: Score): real {
    if s.NegInf? then 0.0 else exp(s.v - if peak.Fin? then peak.v else 0.0)
  }

  /** The stable softmax; a channel without written scores has no weight. */
  function Softmax(exp: real -> real): Weights {
    (sc: seq<seq<Score>>, j: int, ch: int) =>
      var peak := Peak(sc, ch, |sc|);
      var total := Total(exp, sc, ch, peak, |sc|);
      Exp(exp, ScoreAt(sc, j, ch), peak) / (if total == 0.0 then 1.0 else total)
  }

  function Total(exp: real -> real, sc: seq<seq<Score>>, ch: int, peak: Score, n: nat): real {
    Sum(i => Exp(exp, ScoreAt(sc, i, ch), peak), 0, n)
  }

  lemma {:induction false} TotalCovers(exp: real -> real, sc: seq<seq<Score>>, ch: int, peak: Score, n: nat)
    requires forall x :: exp(x) > 0.0
    ensures Total(exp, sc, ch, peak, n) >= 0.0
    ensures forall j :: 0 <= j < n ==> Exp(exp, ScoreAt(sc, j, ch), peak) <= Total(exp, sc, ch, peak, n)
  {
    if n > 0 { TotalCovers(exp, sc, ch, peak, n - 1); }
  }

  /** Softmax is such a weight, whatever positive function exp is. */
  lemma SoftmaxWeighs(exp: real -> real)
    requires forall x :: exp(x) > 0.0
    ensures Weighs(Softmax(exp))
  {
    var w := Softmax(exp);
    hide Peak, Total;
    forall sc, j, ch ensures if ScoreAt(sc, j, ch).NegInf? then w(sc, j, ch) == 0.0 else w(sc, j, ch) > 0.0 {
      TotalCovers(exp, sc, ch, Peak(sc, ch, |sc|), |sc|);
    }
  }

  ghost predicate SplitAgrees(c: Config, pool: Pool, S: nat)
    requires c.Valid()
  {
    forall toks: seq<Token> | Shaped(c, toks) && S <= |toks| ::
      PrefillThenDecode(c, pool, toks, S) == Prefill(c, pool, toks).0
  }

  /** Under gated pooling, the split point is harmless exactly when the prefill is empty or holds a full group. */
  lemma SplitAgreesExactly(c: Config, w: Weights, S: nat)
    requires c.Valid() && c.d >= 1 && Weighs(w)
    ensures SplitAgrees(c, Pooled(w), S) <==> S == 0 || S >= c.ratio
  {
    if S == 0 || S >= c.ratio {
      forall toks: seq<Token> | Shaped(c, toks) && S <= |toks|
        ensures PrefillThenDecode(c, Pooled(w), toks, S) == Prefill(c, Pooled(w), toks).0
      { BatchIsIncremental(c, Pooled(w), toks, S); }
    } else {
      ShortPrefillForgets(c, w, S);
    }
  }

  function Ones(n: nat): Vec { seq(n, i => 1.0) }

  /** One group whose first token is all ones, and whose other tokens are zero. */
  function Spike(c: Config): seq<Token> {
    seq(c.ratio, i => Token(if i == 0 then Ones(c.Width()) else Zeros(c.Width()), Zeros(c.Width())))
  }

  lemma SpikeShaped(c: Config)
    requires c.Valid() && c.d >= 1
    ensures Shaped(c, Spike(c)) && |Spike(c)| == c.ratio && Spike(c)[0].kv == Ones(c.Width())
    ensures forall i :: 1 <= i < c.ratio ==> Spike(c)[i].kv == Zeros(c.Width())
  {
    var n := c.Width();
    assert |Ones(n)| == |Zeros(n)| == n;
    forall i | 0 <= i < |Spike(c)| ensures |Spike(c)[i].kv| == n && |Spike(c)[i].sc| == n {}
  }

  /** With 0 < S < ratio the first token is dropped: its group's row is positive in a full prefill, and zero here. */
  lemma ShortPrefillForgets(c: Config, w: Weights, S: nat)
    requires c.Valid() && c.d >= 1 && 0 < S < c.ratio && Weighs(w)
    ensures Shaped(c, Spike(c)) && S <= |Spike(c)|
    ensures var split, full := PrefillThenDecode(c, Pooled(w), Spike(c), S), Prefill(c, Pooled(w), Spike(c)).0;
      |split| == |full| == 1 && |split[0]| == |full[0]| == c.d && split[0][0] == 0.0 < full[0][0]
    ensures !SplitAgrees(c, Pooled(w), S)
  {
    var toks := Spike(c);
    Modular.DivModUnique(S, c.ratio, 0, S);
    Modular.DivModUnique(c.ratio, c.ratio, 1, 0);
    SpikeShaped(c);
    assert |toks[..S]| == S;
    InitShaped(c);
    assert ZeroKv(c, StateInit(c));
    hide DecodeAll, Weighs, Pooled;
    DecodeFresh(c, w, toks, S, StateInit(c));
    var rest := DecodeAll(c, Pooled(w), toks, S, StateInit(c));
    assert PrefillThenDecode(c, Pooled(w), toks, S) == [] + rest == rest;
    FirstRow(c, w);
    var split, full := PrefillThenDecode(c, Pooled(w), toks, S), Prefill(c, Pooled(w), toks).0;
    assert split[0][0] != full[0][0];
  }

  lemma {:induction false} DotSpike(f: int -> real, g: int -> real, at: int, n: nat)
    requires 0 <= at && f(at) == 1.0 && forall j :: 0 <= j < n && j != at ==> f(j) == 0.0
    ensures Dot(f, g, 0, n) == if at < n then g(at) else 0.0
  {
    hide Dot, Sum;
    DotLast(f, g, 0, n);
    if n > 0 { DotSpike(f, g, at, n - 1); }
  }

  /** The whole group pooled at once: only the first token contributes, with a positive weight. */
  lemma FirstRow(c: Config, w: Weights)
    requires c.Valid() && c.d >= 1 && Weighs(w)
    ensures Shaped(c, Spike(c)) && c.ratio / c.ratio == 1
    ensures var row := Rows(c, Pooled(w), Spike(c), 1)[0]; |row| == c.d && row[0] > 0.0
  {
    var toks := Spike(c);
    Modular.DivModUnique(c.ratio, c.ratio, 1, 0);
    SpikeShaped(c);
    GroupFits(c, |toks|, 0);
    var at := if c.Overlap() then c.ratio else 0;
    var kv, sc := WindowKv(c, toks, 0), WindowSc(c, toks, 0);
    SpikeWindow(c);
    hide WindowKv, WindowSc;
    assert Channel(w, kv, sc, 0) == w(sc, at, 0) by {
      var f, g := (j: int) => Cell(kv, j, 0), (j: int) => w(sc, j, 0);
      DotSpike(f, g, at, |kv|);
      DotExt(f, g, j => Cell(kv, j, 0), j => w(sc, j, 0), 0, |kv|);
    }
    assert ScoreAt(sc, at, 0).Fin?;
  }

  /** The window of that group: ones in the first token's row, zeros elsewhere, and a written score there. */
  lemma SpikeWindow(c: Config)
    requires c.Valid() && c.d >= 1
    ensures Shaped(c, Spike(c)) && 1 * c.ratio <= |Spike(c)|
    ensures var at := if c.Overlap() then c.ratio else 0;
      var kv, sc := WindowKv(c, Spike(c), 0), WindowSc(c, Spike(c), 0);
      && at < |kv| == |sc| && |kv[0]| == c.d && Cell(kv, at, 0) == 1.0 && ScoreAt(sc, at, 0).Fin?
      && (forall j :: 0 <= j < |kv| && j != at ==> Cell(kv, j, 0) == 0.0)
  {
    var toks, at := Spike(c), if c.Overlap() then c.ratio else 0;
    SpikeShaped(c);
    BiasedWidth(c, toks[0], 0);
    SpikeGroup(c);
    var b := GroupSc(c, toks, 0, 0);
    hide GroupSc, GroupKv, Spike, Biased;
    var kv, sc := WindowKv(c, toks, 0), WindowSc(c, toks, 0);
    assert sc[at] == if c.Overlap() then b[c.d..] else b;
    forall j | 0 <= j < |kv| ensures Cell(kv, j, 0) == if j == at then 1.0 else 0.0 {
      if c.Overlap() && j < c.ratio {
        assert kv[j] == Zeros(c.d);
      } else {
        assert kv[j] == if c.Overlap() then GroupKv(c, toks, 0, j - c.ratio)[c.d..] else GroupKv(c, toks, 0, j);
      }
    }
  }

  lemma SpikeGroup(c: Config)
    requires c.Valid() && c.d >= 1
    ensures Shaped(c, Spike(c)) && 1 * c.ratio <= |Spike(c)|
    ensures forall j :: 0 <= j < c.ratio ==>
      GroupKv(c, Spike(c), 0, j) == if j == 0 then Ones(c.Width()) else Zeros(c.Width())
    ensures GroupSc(c, Spike(c), 0, 0) == Biased(Spike(c)[0].sc, c.ape[0])
  {
    SpikeShaped(c);
    forall j | 0 <= j < c.ratio
      ensures GroupKv(c, Spike(c), 0, j) == if j == 0 then Ones(c.Width()) else Zeros(c.Width()) {
      assert 0 * c.ratio + j == j;
    }
    assert 0 * c.ratio + 0 == 0;
  }

  ghost predicate ZeroKv(c: Config, st: State) {
    forall i :: 0 <= i < |st.kv| ==> st.kv[i] == Zeros(c.Width())
  }

  lemma PooledZero(w: Weights, kv: seq<Vec>, sc: seq<seq<Score>>, d: nat)
    requires |kv| > 0 && d >= 1 && forall i :: 0 <= i < |kv| ==> kv[i] == Zeros(d)
    ensures |Pooled(w)(kv, sc)| == d && Pooled(w)(kv, sc)[0] == 0.0
  {
    var f, g := (j: int) => Cell(kv, j, 0), (j: int) => w(sc, j, 0);
    DotZero(f, g, 0, |kv|);
    DotExt(f, g, j => Cell(kv, j, 0), j => w(sc, j, 0), 0, |kv|);
  }

  /** Decoding zero tokens from a zero state pools a zero row. */
  lemma {:induction false} DecodeFresh(c: Config, w: Weights, toks: seq<Token>, n: nat, st: State)
    requires c.Valid() && c.d >= 1 && Shaped(c, toks) && |toks| == c.ratio && 0 < n < c.ratio && StateShaped(c, st) &&
      ZeroKv(c, st)
    requires forall k :: n <= k < c.ratio ==> toks[k].kv == Zeros(c.Width())
    ensures var rows := DecodeAll(c, Pooled(w), toks, n, st); |rows| == 1 && |rows[0]| == c.d && rows[0][0] == 0.0
    decreases c.ratio - n
  {
    assert Shaped(c, [toks[n]]);
    Modular.DivModUnique(n, c.ratio, 0, n);
    DecodeShaped(c, Pooled(w), toks[n], n, st);
    var (row, st') := DecodeStep(c, Pooled(w), toks[n], n, st);
    hide Biased, Pooled;
    if n + 1 < c.ratio {
      Modular.DivModUnique(n + 1, c.ratio, 0, n + 1);
      DecodeFresh(c, w, toks, n + 1, st');
      var rest := DecodeAll(c, Pooled(w), toks, n + 1, st');
      assert [] + rest == rest;
    } else {
      Modular.DivModUnique(n + 1, c.ratio, 1, 0);
      LastRow(c, w, toks[n], n, st);
      assert DecodeAll(c, Pooled(w), toks, n + 1, st') == [];
    }
  }

  lemma LastRow(c: Config, w: Weights, tok: Token, n: nat, st: State)
    requires c.Valid() && c.d >= 1 && Shaped(c, [tok]) && StateShaped(c, st) && ZeroKv(c, st) &&
      tok.kv == Zeros(c.Width())
    requires (n + 1) % c.ratio == 0
    ensures var row := DecodeStep(c, Pooled(w), tok, n, st).0; row.Some? && |row.value| == c.d && row.value[0] == 0.0
  {
    hide Biased, Pooled;
    assert |[tok][0].sc| == c.Width();
    var j, off := n % c.ratio, if c.Overlap() then c.ratio else 0;
    BiasedWidth(c, tok, j);
    var kv := st.kv[off + j := tok.kv];
    var sc := st.sc[off + j := Biased(tok.sc, c.ape[j])];
    if c.Overlap() {
      var a := seq(c.ratio, i requires 0 <= i < c.ratio => kv[i][..c.d]) +
        seq(c.ratio, i requires 0 <= i < c.ratio => kv[c.ratio + i][c.d..]);
      var b := seq(c.ratio, i requires 0 <= i < c.ratio => sc[i][..c.d]) +
        seq(c.ratio, i requires 0 <= i < c.ratio => sc[c.ratio + i][c.d..]);
      forall i | 0 <= i < |a| ensures a[i] == Zeros(c.d) {}
      PooledZero(w, a, b, c.d);
    } else {
      PooledZero(w, kv, sc, c.d);
    }
  }
}
