/** The gated delta rule: the one-token recurrence, and the chunked form that solves a
    unit-lower-triangular system per chunk. */
module GatedDelta {
  // One (batch, value head) slice is modelled; the code broadcasts over both axes.
  // The decay is a factor `exp(g)` per token, so `exp` of a difference of running
  // sums is a product of factors over a range. Queries and keys are the already
  // normalised and scaled ones.
  import opened Sums
  import Modular

  type Vec = seq<real>
  type Mat = seq<seq<real>>

  datatype Inputs = Inputs(q: Mat, k: Mat, v: Mat, decay: Vec, beta: Vec)

  ghost predicate IsMat(a: Mat, rows: nat, cols: nat) {
    |a| == rows && forall i :: 0 <= i < rows ==> |a[i]| == cols
  }

  ghost predicate Shaped(x: Inputs, n: nat, kd: nat, vd: nat) {
    IsMat(x.q, n, kd) && IsMat(x.k, n, kd) && IsMat(x.v, n, vd) && |x.decay| == n && |x.beta| == n
  }

  function At(a: Vec, i: int): real { if 0 <= i < |a| then a[i] else 0.0 }

  function At2(a: Mat, i: int, j: int): real { if 0 <= i < |a| then At(a[i], j) else 0.0 }

  function Decay(x: Inputs, t: int): real { if 0 <= t < |x.decay| then x.decay[t] else 1.0 }

  /** Row t of a matrix, and column m of a matrix. */
  function Row(a: Mat, t: int): int -> real { i => At2(a, t, i) }

  function Col(a: Mat, m: int): int -> real { i => At2(a, i, m) }

  function Scaled(g: real, f: int -> real): int -> real { i => g * f(i) }

  function Build(rows: nat, cols: nat, f: (int, int) -> real): (a: Mat)
    ensures IsMat(a, rows, cols)
    ensures forall i, j :: 0 <= i < rows && 0 <= j < cols ==> At2(a, i, j) == f(i, j)
  {
    seq(rows, i => seq(cols, j => f(i, j)))
  }

  // ---------------------------------------------------------------------------
  // The one-token recurrence
  // ---------------------------------------------------------------------------

  /** Entry (i, m) of the memory after t tokens. */
  function State(x: Inputs, kd: nat, s0: Mat, t: nat, i: int, m: int): real
    decreases t, 0
  {
    if t == 0 then At2(s0, i, m)
    else Decay(x, t - 1) * State(x, kd, s0, t - 1, i, m) + At2(x.k, t - 1, i) * Delta(x, kd, s0, t - 1, m)
  }

  /** The correction written at token t: beta times (value minus what the decayed memory recalls). */
  function Delta(x: Inputs, kd: nat, s0: Mat, t: nat, m: int): real
    decreases t, 1
  {
    (At2(x.v, t, m) - Dot(Scaled(Decay(x, t), i => State(x, kd, s0, t, i, m)), Row(x.k, t), 0, kd)) * At(x.beta, t)
  }

  /** Column m of the memory after t tokens. */
  function Memory(x: Inputs, kd: nat, s0: Mat, t: nat, m: int): int -> real {
    i => State(x, kd, s0, t, i, m)
  }

  /** Row t of the result: the memory after token t, read with the query. */
  function Output(x: Inputs, kd: nat, s0: Mat, t: nat, m: int): real {
    Dot(Memory(x, kd, s0, t + 1, m), Row(x.q, t), 0, kd)
  }

  ghost predicate IsOutputs(x: Inputs, kd: nat, s0: Mat, out: Mat, n: nat, vd: nat) {
    IsMat(out, n, vd) && forall t, m :: 0 <= t < n && 0 <= m < vd ==> At2(out, t, m) == Output(x, kd, s0, t, m)
  }

  ghost predicate IsChunkOutputs(x: Inputs, kd: nat, s0: Mat, out: Mat, base: nat, n: nat, vd: nat) {
    IsMat(out, n, vd) && forall t, m :: 0 <= t < n && 0 <= m < vd ==> At2(out, t, m) == Output(x, kd, s0, base + t, m)
  }

  ghost predicate IsState(x: Inputs, kd: nat, s0: Mat, t: nat, st: Mat, vd: nat) {
    IsMat(st, kd, vd) && forall i, m :: 0 <= i < kd && 0 <= m < vd ==> At2(st, i, m) == State(x, kd, s0, t, i, m)
  }

  lemma StateStep(x: Inputs, kd: nat, s0: Mat, t: nat, i: int, m: int)
    requires t > 0
    ensures State(x, kd, s0, t, i, m) ==
      Decay(x, t - 1) * State(x, kd, s0, t - 1, i, m) + At2(x.k, t - 1, i) * Delta(x, kd, s0, t - 1, m)
  {
  }

  lemma StateNext(x: Inputs, kd: nat, s0: Mat, t: nat, i: int, m: int)
    ensures State(x, kd, s0, t + 1, i, m) ==
      Decay(x, t) * State(x, kd, s0, t, i, m) + At2(x.k, t, i) * Delta(x, kd, s0, t, m)
  {
  }

  lemma DeltaIs(x: Inputs, kd: nat, s0: Mat, t: nat, m: int)
    ensures Delta(x, kd, s0, t, m) ==
      (At2(x.v, t, m) - Dot(Scaled(Decay(x, t), i => State(x, kd, s0, t, i, m)), Row(x.k, t), 0, kd)) * At(x.beta, t)
  {
  }

  /** `state * decay_t`, then `(v - kv_mem) * beta_t`, then the rank-one update. */
  method RecurrentStep(x: Inputs, t: nat, kd: nat, vd: nat, ghost s0: Mat, st: Mat) returns (st': Mat)
    requires IsState(x, kd, s0, t, st, vd)
    ensures IsState(x, kd, s0, t + 1, st', vd)
  {
    hide Dot, State, Delta;
    var decayed := Build(kd, vd, (i, m) => Decay(x, t) * At2(st, i, m));
    var kvMem := seq(vd, m => Dot(Col(decayed, m), Row(x.k, t), 0, kd));
    var delta := seq(vd, m => (At2(x.v, t, m) - At(kvMem, m)) * At(x.beta, t));
    st' := Build(kd, vd, (i, m) => At2(decayed, i, m) + At2(x.k, t, i) * At(delta, m));
    forall m | 0 <= m < vd ensures At(delta, m) == Delta(x, kd, s0, t, m) {
      var f := Scaled(Decay(x, t), i => State(x, kd, s0, t, i, m));
      DotExt(Col(decayed, m), Row(x.k, t), f, Row(x.k, t), 0, kd);
      DeltaIs(x, kd, s0, t, m);
      MulEq(At2(x.v, t, m) - At(kvMem, m), At2(x.v, t, m) - Dot(f, Row(x.k, t), 0, kd), At(x.beta, t), At(x.beta, t));
    }
    forall i, m | 0 <= i < kd && 0 <= m < vd ensures At2(st', i, m) == State(x, kd, s0, t + 1, i, m) {
      assert At2(decayed, i, m) == Decay(x, t) * At2(st, i, m);
      assert At2(st', i, m) == At2(decayed, i, m) + At2(x.k, t, i) * At(delta, m);
      StateNext(x, kd, s0, t, i, m);
      MulEq(Decay(x, t), Decay(x, t), At2(st, i, m), State(x, kd, s0, t, i, m));
      MulEq(At2(x.k, t, i), At2(x.k, t, i), At(delta, m), Delta(x, kd, s0, t, m));
    }
  }

  method Recurrent(x: Inputs, n: nat, kd: nat, vd: nat, s0: Mat) returns (out: Mat, state: Mat)
    requires Shaped(x, n, kd, vd) && IsMat(s0, kd, vd)
    ensures IsOutputs(x, kd, s0, out, n, vd)
    ensures IsState(x, kd, s0, n, state, vd)
    ensures Computes(x, n, kd, vd, s0, out, state)
  {
    hide State, Delta, Dot;
    StateZero(x, kd, s0, vd);
    state := s0;
    out := [];
    for t := 0 to n
      invariant IsState(x, kd, s0, t, state, vd)
      invariant IsOutputs(x, kd, s0, out, t, vd)
    {
      state := RecurrentStep(x, t, kd, vd, s0, state);
      var after := state;
      var row := seq(vd, m => Dot(Col(after, m), Row(x.q, t), 0, kd));
      forall m | 0 <= m < vd ensures At(row, m) == Output(x, kd, s0, t, m) {
        DotExt(Col(after, m), Row(x.q, t), Memory(x, kd, s0, t + 1, m), Row(x.q, t), 0, kd);
      }
      out := out + [row];
    }
    hide Computes, IsOutputs, IsState;
    RecurrenceComputes(x, n, kd, vd, s0, out, state);
  }

  lemma StateZero(x: Inputs, kd: nat, s0: Mat, vd: nat)
    requires IsMat(s0, kd, vd)
    ensures IsState(x, kd, s0, 0, s0, vd)
  {
  }

  // ---------------------------------------------------------------------------
  // What the rule computes, from the inputs alone
  // ---------------------------------------------------------------------------

  /** What the first j rows of the memory, decayed by token t, recall of channel m for its key. */
  function Recalled(x: Inputs, t: nat, mem: Mat, m: nat, j: nat): real
    requires t < |x.decay| && t < |x.k| && j <= |x.k[t]| && j <= |mem| && forall i :: 0 <= i < |mem| ==> m < |mem[i]|
  {
    if j == 0 then 0.0 else Recalled(x, t, mem, m, j - 1) + x.decay[t] * mem[j - 1][m] * x.k[t][j - 1]
  }

  /** What the first j rows of the memory answer in channel m to the query of token t. */
  function Answered(x: Inputs, t: nat, mem: Mat, m: nat, j: nat): real
    requires t < |x.q| && j <= |x.q[t]| && j <= |mem| && forall i :: 0 <= i < |mem| ==> m < |mem[i]|
  {
    if j == 0 then 0.0 else Answered(x, t, mem, m, j - 1) + mem[j - 1][m] * x.q[t][j - 1]
  }

  /** One token: every entry decays, and moves along the key by beta times what the memory got wrong. */
  ghost predicate TokenStep(x: Inputs, n: nat, kd: nat, vd: nat, t: nat, before: Mat, after: Mat, row: Vec)
    requires Shaped(x, n, kd, vd) && t < n
  {
    && IsMat(before, kd, vd) && IsMat(after, kd, vd) && |row| == vd
    && (forall i, m :: 0 <= i < kd && 0 <= m < vd ==>
          after[i][m] ==
            x.decay[t] * before[i][m] + x.k[t][i] * ((x.v[t][m] - Recalled(x, t, before, m, kd)) * x.beta[t]))
    && (forall m :: 0 <= m < vd ==> row[m] == Answered(x, t, after, m, kd))
  }

  /** The memories from the initial one to the final one, one per token, each answering its token's query. */
  ghost predicate Trace(x: Inputs, n: nat, kd: nat, vd: nat, s0: Mat, mems: seq<Mat>, out: Mat, state: Mat)
    requires Shaped(x, n, kd, vd)
  {
    && |mems| == n + 1 && |out| == n && mems[0] == s0 && mems[n] == state
    && forall t: nat :: t < n ==> TokenStep(x, n, kd, vd, t, mems[t], mems[t + 1], out[t])
  }

  ghost predicate Computes(x: Inputs, n: nat, kd: nat, vd: nat, s0: Mat, out: Mat, state: Mat)
    requires Shaped(x, n, kd, vd)
  {
    exists mems :: Trace(x, n, kd, vd, s0, mems, out, state)
  }

  /** The memory after t tokens, as a matrix. */
  ghost function MemoryAt(x: Inputs, kd: nat, vd: nat, s0: Mat, t: nat): (a: Mat)
    ensures IsState(x, kd, s0, t, a, vd)
  {
    Build(kd, vd, (i, m) => State(x, kd, s0, t, i, m))
  }

  lemma {:induction false} RecalledIs(x: Inputs, n: nat, kd: nat, vd: nat, s0: Mat, t: nat, mem: Mat, m: nat, j: nat)
    requires Shaped(x, n, kd, vd) && t < n && IsState(x, kd, s0, t, mem, vd) && m < vd && j <= kd
    ensures Dot(Scaled(Decay(x, t), i => State(x, kd, s0, t, i, m)), Row(x.k, t), 0, j) == Recalled(x, t, mem, m, j)
  {
    hide Dot, State;
    var f := Scaled(Decay(x, t), i => State(x, kd, s0, t, i, m));
    DotLast(f, Row(x.k, t), 0, j);
    if j > 0 {
      RecalledIs(x, n, kd, vd, s0, t, mem, m, j - 1);
      assert At2(mem, j - 1, m) == State(x, kd, s0, t, j - 1, m);
    }
  }

  lemma {:induction false} AnsweredIs(x: Inputs, n: nat, kd: nat, vd: nat, s0: Mat, t: nat, mem: Mat, m: nat, j: nat)
    requires Shaped(x, n, kd, vd) && t < n && IsState(x, kd, s0, t + 1, mem, vd) && m < vd && j <= kd
    ensures Dot(Memory(x, kd, s0, t + 1, m), Row(x.q, t), 0, j) == Answered(x, t, mem, m, j)
  {
    hide Dot, State;
    DotLast(Memory(x, kd, s0, t + 1, m), Row(x.q, t), 0, j);
    if j > 0 {
      AnsweredIs(x, n, kd, vd, s0, t, mem, m, j - 1);
      assert At2(mem, j - 1, m) == State(x, kd, s0, t + 1, j - 1, m);
    }
  }

  lemma {:induction false} StepIs(x: Inputs, n: nat, kd: nat, vd: nat, s0: Mat, t: nat, before: Mat, after: Mat,
                                  row: Vec)
    requires Shaped(x, n, kd, vd) && t < n && |row| == vd
    requires IsState(x, kd, s0, t, before, vd) && IsState(x, kd, s0, t + 1, after, vd)
    requires forall m :: 0 <= m < vd ==> row[m] == Output(x, kd, s0, t, m)
    ensures TokenStep(x, n, kd, vd, t, before, after, row)
  {
    forall i, m | 0 <= i < kd && 0 <= m < vd
      ensures after[i][m] ==
        x.decay[t] * before[i][m] + x.k[t][i] * ((x.v[t][m] - Recalled(x, t, before, m, kd)) * x.beta[t])
    {
      assert At2(after, i, m) == State(x, kd, s0, t + 1, i, m) && At2(before, i, m) == State(x, kd, s0, t, i, m);
      StateStep(x, kd, s0, t + 1, i, m);
      RecalledIs(x, n, kd, vd, s0, t, before, m, kd);
      hide State, Dot, Recalled;
    }
    forall m | 0 <= m < vd ensures row[m] == Answered(x, t, after, m, kd) {
      AnsweredIs(x, n, kd, vd, s0, t, after, m, kd);
    }
  }

  /** The recurrence's outputs and memory are those of the inputs, token by token. */
  lemma {:induction false} RecurrenceComputes(x: Inputs, n: nat, kd: nat, vd: nat, s0: Mat, out: Mat, state: Mat)
    requires Shaped(x, n, kd, vd) && IsMat(s0, kd, vd) && IsOutputs(x, kd, s0, out, n, vd) &&
      IsState(x, kd, s0, n, state, vd)
    ensures Computes(x, n, kd, vd, s0, out, state)
  {
    var mems := seq(n + 1, t requires 0 <= t => MemoryAt(x, kd, vd, s0, t));
    SameMemory(x, kd, vd, s0, n, mems[n], state);
    StateZero(x, kd, s0, vd);
    SameMemory(x, kd, vd, s0, 0, mems[0], s0);
    forall t: nat | t < n ensures TokenStep(x, n, kd, vd, t, mems[t], mems[t + 1], out[t]) {
      forall m | 0 <= m < vd ensures out[t][m] == Output(x, kd, s0, t, m) { assert At2(out, t, m) == out[t][m]; }
      StepIs(x, n, kd, vd, s0, t, mems[t], mems[t + 1], out[t]);
      hide TokenStep, Output, State, IsState;
    }
    hide TokenStep, IsState, IsOutputs;
    assert Trace(x, n, kd, vd, s0, mems, out, state);
  }

  lemma SameMemory(x: Inputs, kd: nat, vd: nat, s0: Mat, t: nat, a: Mat, b: Mat)
    requires IsState(x, kd, s0, t, a, vd) && IsState(x, kd, s0, t, b, vd)
    ensures a == b
  {
    hide State;
    forall i | 0 <= i < kd ensures a[i] == b[i] {
      forall m | 0 <= m < vd ensures a[i][m] == b[i][m] { assert At2(a, i, m) == At2(b, i, m); }
    }
  }

  lemma {:induction false} TracesAgree(x: Inputs, n: nat, kd: nat, vd: nat, s0: Mat, mems: seq<Mat>, out: Mat,
                                       state: Mat,
                                       mems': seq<Mat>, out': Mat, state': Mat, t: nat)
    requires Shaped(x, n, kd, vd) && t <= n
    requires Trace(x, n, kd, vd, s0, mems, out, state) && Trace(x, n, kd, vd, s0, mems', out', state')
    ensures mems[t] == mems'[t] && out[..t] == out'[..t]
  {
    hide Recalled, Answered;
    if t > 0 {
      var p := t - 1;
      TracesAgree(x, n, kd, vd, s0, mems, out, state, mems', out', state', p);
      assert TokenStep(x, n, kd, vd, p, mems[p], mems[p + 1], out[p]);
      assert TokenStep(x, n, kd, vd, p, mems'[p], mems'[p + 1], out'[p]);
      hide TokenStep;
      StepOnce(x, n, kd, vd, p, mems[p], mems[p + 1], out[p], mems'[p + 1], out'[p]);
      assert out[..t] == out[..p] + [out[p]] && out'[..t] == out'[..p] + [out'[p]];
    }
  }

  lemma StepOnce(x: Inputs, n: nat, kd: nat, vd: nat, t: nat, before: Mat, after: Mat, row: Vec, after': Mat, row': Vec)
    requires Shaped(x, n, kd, vd) && t < n
    requires TokenStep(x, n, kd, vd, t, before, after, row) && TokenStep(x, n, kd, vd, t, before, after', row')
    ensures after == after' && row == row'
  {
    hide Recalled, Answered;
    forall i, m | 0 <= i < kd && 0 <= m < vd ensures after[i][m] == after'[i][m] {
      var e := x.decay[t] * before[i][m] + x.k[t][i] * ((x.v[t][m] - Recalled(x, t, before, m, kd)) * x.beta[t]);
      assert after[i][m] == e && after'[i][m] == e;
    }
    SameEntries(after, after', kd, vd);
    assert row == row';
  }

  lemma SameEntries(a: Mat, b: Mat, rows: nat, cols: nat)
    requires IsMat(a, rows, cols) && IsMat(b, rows, cols)
    requires forall i, m :: 0 <= i < rows && 0 <= m < cols ==> a[i][m] == b[i][m]
    ensures a == b
  {
    forall i | 0 <= i < rows ensures a[i] == b[i] {}
  }

  /** The inputs determine the outputs and the final memory, so the two forms return the same. */
  lemma ComputesOnce(x: Inputs, n: nat, kd: nat, vd: nat, s0: Mat, out: Mat, state: Mat, out': Mat, state': Mat)
    requires Shaped(x, n, kd, vd) && Computes(x, n, kd, vd, s0, out, state) && Computes(x, n, kd, vd, s0, out', state')
    ensures out == out' && state == state'
  {
    var mems :| Trace(x, n, kd, vd, s0, mems, out, state);
    var mems' :| Trace(x, n, kd, vd, s0, mems', out', state');
    TracesAgree(x, n, kd, vd, s0, mems, out, state, mems', out', state', n);
    assert out[..n] == out && out'[..n] == out';
  }

  // ---------------------------------------------------------------------------
  // Forward substitution
  // ---------------------------------------------------------------------------

  /** Row i of the strictly lower part of L, times column m of x. */
  function Below(l: Mat, x: Mat, i: int, m: int): real {
    Dot(Row(l, i), Col(x, m), 0, i)
  }

  /** x is a solution of L x = b for the unit-lower-triangular part of L (its diagonal is not read). */
  ghost predicate Solves(l: Mat, b: Mat, x: Mat, n: nat, cols: nat) {
    IsMat(x, n, cols) &&
    forall i, m :: 0 <= i < n && 0 <= m < cols ==> At2(x, i, m) + Below(l, x, i, m) == At2(b, i, m)
  }

  method SolveUnitLower(l: Mat, b: Mat, n: nat, cols: nat) returns (x: Mat)
    requires IsMat(l, n, n) && IsMat(b, n, cols) && 1 <= n
    ensures Solves(l, b, x, n, cols)
  {
    x := b;
    for i := 1 to n
      invariant IsMat(x, n, cols)
      invariant forall r :: i <= r < n ==> x[r] == b[r]
      invariant forall r, m :: 0 <= r < i && 0 <= m < cols ==> At2(x, r, m) + Below(l, x, r, m) == At2(b, r, m)
    {
      hide Dot;
      var prev := x;
      var row := seq(cols, m => At2(prev, i, m) - Below(l, prev, i, m));
      x := x[i := row];
      forall r, m | 0 <= r <= i && 0 <= m < cols
        ensures At2(x, r, m) + Below(l, x, r, m) == At2(b, r, m)
      {
        DotExt(Row(l, r), Col(x, m), Row(l, r), Col(prev, m), 0, r);
      }
    }
  }

  // ---------------------------------------------------------------------------
  // Chunk quantities
  // ---------------------------------------------------------------------------

  /** Product of the decay factors of tokens lo .. hi-1: exp of a difference of running sums. */
  function Prod(x: Inputs, lo: int, hi: int): real
    decreases hi - lo
  {
    if hi <= lo then 1.0 else Decay(x, hi - 1) * Prod(x, lo, hi - 1)
  }

  /** exp(cum[t] - cum[s]) inside the chunk that starts at `base`; 0 above the diagonal. */
  function Pairwise(x: Inputs, base: nat, t: int, s: int): real {
    if t < s then 0.0 else Prod(x, base + s + 1, base + t + 1)
  }

  function Gram(a: Mat, t: int, b: Mat, s: int, kd: nat): real {
    Dot(Row(a, t), Row(b, s), 0, kd)
  }

  /** Row t of `k_beta`. */
  function KBeta(x: Inputs, t: int): int -> real { i => At(x.beta, t) * At2(x.k, t, i) }

  function UtSystem(x: Inputs, base: nat, c: nat, kd: nat): (a: Mat)
    ensures IsMat(a, c, c)
  {
    Build(c, c, (t, s) => Dot(KBeta(x, base + t), Row(x.k, base + s), 0, kd) * Pairwise(x, base, t, s))
  }

  function Intra(x: Inputs, base: nat, c: nat, kd: nat): (a: Mat)
    ensures IsMat(a, c, c)
  {
    Build(c, c, (t, s) => Gram(x.q, base + t, x.k, base + s, kd) * Pairwise(x, base, t, s))
  }

  function VBeta(x: Inputs, base: nat, c: nat, vd: nat): (a: Mat)
    ensures IsMat(a, c, vd)
  {
    Build(c, vd, (t, m) => At2(x.v, base + t, m) * At(x.beta, base + t))
  }

  function DecayedKBeta(x: Inputs, base: nat, c: nat, kd: nat): (a: Mat)
    ensures IsMat(a, c, kd)
  {
    Build(c, kd, (t, i) => KBeta(x, base + t)(i) * Prod(x, base, base + t + 1))
  }

  // ---------------------------------------------------------------------------
  // Unrolling the recurrence over a chunk
  // ---------------------------------------------------------------------------

  lemma ProdStep(x: Inputs, lo: int, hi: int)
    ensures hi <= lo ==> Prod(x, lo, hi) == 1.0
    ensures lo < hi ==> Prod(x, lo, hi) == Decay(x, hi - 1) * Prod(x, lo, hi - 1)
  {
  }

  /** The corrections of the chunk that starts at `base`, by position in the chunk. */
  function Deltas(x: Inputs, kd: nat, s0: Mat, base: nat, m: int): int -> real {
    s => if s < 0 then 0.0 else Delta(x, kd, s0, base + s, m)
  }

  /** How strongly each token of the chunk still stands in memory row i just before token base+t. */
  function Weights(x: Inputs, base: nat, t: nat, i: int): int -> real {
    s => Prod(x, base + s + 1, base + t) * At2(x.k, base + s, i)
  }

  lemma WeightsStep(x: Inputs, base: nat, t: nat, i: int, s: int)
    requires 0 <= s < t - 1
    ensures Weights(x, base, t, i)(s) == Decay(x, base + t - 1) * Weights(x, base, t - 1, i)(s)
  {
    hide Prod;
    ProdStep(x, base + s + 1, base + t);
    Assoc(Decay(x, base + t - 1), Prod(x, base + s + 1, base + t - 1), At2(x.k, base + s, i));
  }

  lemma WeightsLast(x: Inputs, base: nat, t: nat, i: int)
    requires 0 < t
    ensures Weights(x, base, t, i)(t - 1) == At2(x.k, base + t - 1, i)
  {
    assert Prod(x, base + t, base + t) == 1.0;
  }

  /** The memory before token base+t: what was carried in, decayed, plus the weighted corrections. */
  lemma {:induction false} Unroll(x: Inputs, kd: nat, s0: Mat, base: nat, t: nat, i: int, m: int)
    ensures State(x, kd, s0, base + t, i, m)
         == Prod(x, base, base + t) * State(x, kd, s0, base, i, m)
          + Dot(Weights(x, base, t, i), Deltas(x, kd, s0, base, m), 0, t)
  {
    var w, d := Weights(x, base, t, i), Deltas(x, kd, s0, base, m);
    DotLast(w, d, 0, t);
    hide State, Prod, Delta, Dot, Weights;
    ProdStep(x, base, base + t);
    if t > 0 {
      Unroll(x, kd, s0, base, t - 1, i, m);
      StateStep(x, kd, s0, base + t, i, m);
      var a := Decay(x, base + t - 1);
      forall s | 0 <= s < t - 1 ensures w(s) == a * Weights(x, base, t - 1, i)(s) {
        WeightsStep(x, base, t, i, s);
      }
      DotScale(w, a, Weights(x, base, t - 1, i), d, 0, t - 1);
      WeightsLast(x, base, t, i);
      UnrollStep(a, Prod(x, base, base + t - 1), Prod(x, base, base + t), State(x, kd, s0, base, i, m),
                 Dot(Weights(x, base, t - 1, i), d, 0, t - 1), State(x, kd, s0, base + t - 1, i, m));
    }
  }

  lemma UnrollStep(a: real, g: real, g': real, st: real, c: real, prev: real)
    requires g' == a * g && prev == g * st + c
    ensures a * prev == g' * st + a * c
  {
    assert (a * g) * st == a * (g * st);
  }

  lemma Assoc(a: real, b: real, c: real)
    ensures (a * b) * c == a * (b * c)
  {
  }

  // ---------------------------------------------------------------------------
  // Reading the memory inside a chunk
  // ---------------------------------------------------------------------------

  /** Either the memory before token base+t, decayed by its factor, or the memory after it. */
  ghost predicate ReadsAt(x: Inputs, base: nat, t: nat, n: nat, c: real) {
    (n == t && c == Decay(x, base + t)) || (n == t + 1 && c == 1.0)
  }

  /** The weight with which the correction at base+s enters a read at base+t with row base+t of `a`. */
  function Overlap(a: Mat, x: Inputs, kd: nat, base: nat, t: nat): int -> real {
    s => Gram(a, base + t, x.k, base + s, kd) * Pairwise(x, base, t, s)
  }

  /** What the memory carried into the chunk contributes to that read. */
  function Carried(a: Mat, x: Inputs, kd: nat, s0: Mat, base: nat, t: nat, m: int): real {
    Prod(x, base, base + t + 1) * Dot(Memory(x, kd, s0, base, m), Row(a, base + t), 0, kd)
  }

  /** Memory row i, token s: the decayed key entry with which the correction stands in the memory read at t. */
  function Standing(x: Inputs, base: nat, t: nat): (int, int) -> real {
    (i, s) => Pairwise(x, base, t, s) * At2(x.k, base + s, i)
  }

  lemma ScaledProd(x: Inputs, base: nat, t: nat, n: nat, c: real, lo: int)
    requires ReadsAt(x, base, t, n, c) && lo <= base + n
    ensures c * Prod(x, lo, base + n) == Prod(x, lo, base + t + 1)
  {
    hide Prod;
    if n == t {
      ProdStep(x, lo, base + t + 1);
      assert base + t + 1 - 1 == base + t;
    }
  }

  lemma ScaledWeight(x: Inputs, base: nat, t: nat, n: nat, c: real, i: int, s: int)
    requires ReadsAt(x, base, t, n, c) && 0 <= s < n
    ensures Standing(x, base, t)(i, s) == c * Weights(x, base, n, i)(s)
  {
    hide Prod;
    ScaledProd(x, base, t, n, c, base + s + 1);
    assert Pairwise(x, base, t, s) == c * Prod(x, base + s + 1, base + n);
    MulEq(Pairwise(x, base, t, s), c * Prod(x, base + s + 1, base + n), At2(x.k, base + s, i), At2(x.k, base + s, i));
    MulEq(c, c, Prod(x, base + s + 1, base + n) * At2(x.k, base + s, i), Weights(x, base, n, i)(s));
    Assoc(c, Prod(x, base + s + 1, base + n), At2(x.k, base + s, i));
  }

  /** One row of the memory being read. */
  lemma ReadRow(x: Inputs, kd: nat, s0: Mat, base: nat, t: nat, n: nat, c: real, m: int, i: int)
    requires ReadsAt(x, base, t, n, c)
    ensures Scaled(c, Memory(x, kd, s0, base + n, m))(i)
         == Scaled(Prod(x, base, base + t + 1), Memory(x, kd, s0, base, m))(i)
          + Rows(Standing(x, base, t), Deltas(x, kd, s0, base, m), 0, n)(i)
  {
    var d := Deltas(x, kd, s0, base, m);
    var row := s => Standing(x, base, t)(i, s);
    hide State, Prod, Delta, Dot, Weights, Standing;
    Unroll(x, kd, s0, base, n, i, m);
    forall s | 0 <= s < n ensures row(s) == c * Weights(x, base, n, i)(s) {
      ScaledWeight(x, base, t, n, c, i, s);
    }
    DotScale(row, c, Weights(x, base, n, i), d, 0, n);
    ScaledProd(x, base, t, n, c, base);
    ScaledAt(x, kd, s0, base, m, Prod(x, base, base + t + 1), i);
    ScaledAt(x, kd, s0, base + n, m, c, i);
    UnrollStep(c, Prod(x, base, base + n), Prod(x, base, base + t + 1), State(x, kd, s0, base, i, m),
               Dot(Weights(x, base, n, i), d, 0, n), State(x, kd, s0, base + n, i, m));
  }

  lemma StandingAt(x: Inputs, base: nat, t: nat, i: int, s: int)
    ensures Standing(x, base, t)(i, s) == Pairwise(x, base, t, s) * At2(x.k, base + s, i)
  {
  }

  lemma ReadColumn(a: Mat, x: Inputs, kd: nat, base: nat, t: nat, s: int)
    ensures Columns(Standing(x, base, t), Row(a, base + t), 0, kd)(s) == Overlap(a, x, kd, base, t)(s)
  {
    var p := Pairwise(x, base, t, s);
    var column := i => Standing(x, base, t)(i, s);
    forall i | 0 <= i < kd ensures column(i) == p * Row(x.k, base + s)(i) {
      StandingAt(x, base, t, i, s);
      MulEq(p, p, At2(x.k, base + s, i), Row(x.k, base + s)(i));
    }
    hide Dot, Prod;
    DotScale(column, p, Row(x.k, base + s), Row(a, base + t), 0, kd);
    DotComm(Row(x.k, base + s), Row(a, base + t), 0, kd);
  }

  lemma ScaledApply(g: real, f: int -> real, i: int)
    ensures Scaled(g, f)(i) == g * f(i)
  {
  }

  lemma ScaledAt(x: Inputs, kd: nat, s0: Mat, base: nat, m: int, g: real, i: int)
    ensures Scaled(g, Memory(x, kd, s0, base, m))(i) == g * State(x, kd, s0, base, i, m)
  {
    hide State;
  }

  lemma ReadSplit(x: Inputs, kd: nat, s0: Mat, base: nat, t: nat, n: nat, c: real, m: int, q: int -> real)
    requires ReadsAt(x, base, t, n, c)
    ensures Dot(Scaled(c, Memory(x, kd, s0, base + n, m)), q, 0, kd)
         == Dot(Scaled(Prod(x, base, base + t + 1), Memory(x, kd, s0, base, m)), q, 0, kd)
          + Dot(Rows(Standing(x, base, t), Deltas(x, kd, s0, base, m), 0, n), q, 0, kd)
  {
    var read := Scaled(c, Memory(x, kd, s0, base + n, m));
    var g, mem := Prod(x, base, base + t + 1), Memory(x, kd, s0, base, m);
    var rows := Rows(Standing(x, base, t), Deltas(x, kd, s0, base, m), 0, n);
    hide State, Prod, Delta, Dot, Standing, Rows, Deltas, ReadsAt, Scaled, Memory;
    forall i | 0 <= i < kd ensures read(i) == Scaled(g, mem)(i) + rows(i) {
      ReadRow(x, kd, s0, base, t, n, c, m, i);
    }
    DotAdd(read, Scaled(g, mem), rows, q, 0, kd);
  }

  /** Reading the memory = what was carried in, plus one weighted correction per token of the chunk. */
  lemma ReadUnrolled(a: Mat, x: Inputs, kd: nat, s0: Mat, base: nat, t: nat, n: nat, c: real, m: int)
    requires ReadsAt(x, base, t, n, c)
    ensures Dot(Scaled(c, Memory(x, kd, s0, base + n, m)), Row(a, base + t), 0, kd)
         == Carried(a, x, kd, s0, base, t, m) + Dot(Overlap(a, x, kd, base, t), Deltas(x, kd, s0, base, m), 0, n)
  {
    var g, mem := Prod(x, base, base + t + 1), Memory(x, kd, s0, base, m);
    var st, d, q := Standing(x, base, t), Deltas(x, kd, s0, base, m), Row(a, base + t);
    var cols := Columns(st, q, 0, kd);
    hide State, Prod, Delta, Dot, Standing, Rows, Columns, Overlap, Gram, Memory, Deltas, ReadsAt, Scaled;
    ReadSplit(x, kd, s0, base, t, n, c, m, q);
    forall i ensures Scaled(g, mem)(i) == g * mem(i) { ScaledApply(g, mem, i); }
    DotScale(Scaled(g, mem), g, mem, q, 0, kd);
    DotSwap(st, q, 0, kd, d, 0, n);
    forall s | 0 <= s < n ensures cols(s) == Overlap(a, x, kd, base, t)(s) {
      ReadColumn(a, x, kd, base, t, s);
    }
    DotExt(cols, d, Overlap(a, x, kd, base, t), d, 0, n);
  }

  /** A correction of the chunk, in terms of the carried memory and the earlier corrections. */
  lemma DeltaInChunk(x: Inputs, kd: nat, s0: Mat, base: nat, t: nat, m: int)
    ensures Delta(x, kd, s0, base + t, m)
         == (At2(x.v, base + t, m) - (Carried(x.k, x, kd, s0, base, t, m)
            + Dot(Overlap(x.k, x, kd, base, t), Deltas(x, kd, s0, base, m), 0, t))) * At(x.beta, base + t)
  {
    hide State, Carried, Dot, Overlap, Deltas;
    ReadUnrolled(x.k, x, kd, s0, base, t, t, Decay(x, base + t), m);
    DotExt(Scaled(Decay(x, base + t), Memory(x, kd, s0, base + t, m)), Row(x.k, base + t),
           Scaled(Decay(x, base + t), i => State(x, kd, s0, base + t, i, m)), Row(x.k, base + t), 0, kd);
  }

  lemma OutputInChunk(x: Inputs, kd: nat, s0: Mat, base: nat, t: nat, m: int)
    ensures Output(x, kd, s0, base + t, m)
         == Carried(x.q, x, kd, s0, base, t, m) +
           Dot(Overlap(x.q, x, kd, base, t), Deltas(x, kd, s0, base, m), 0, t + 1)
  {
    hide State, Carried, Dot, Overlap, Deltas;
    ReadUnrolled(x.q, x, kd, s0, base, t, t + 1, 1.0, m);
    DotExt(Scaled(1.0, Memory(x, kd, s0, base + (t + 1), m)), Row(x.q, base + t),
           Memory(x, kd, s0, base + t + 1, m), Row(x.q, base + t), 0, kd);
  }

  // ---------------------------------------------------------------------------
  // The two triangular solves give the corrections
  // ---------------------------------------------------------------------------

  ghost predicate ChunkSystems(x: Inputs, base: nat, c: nat, kd: nat, vd: nat, u: Mat, w: Mat) {
    var ut := UtSystem(x, base, c, kd);
    Solves(ut, VBeta(x, base, c, vd), u, c, vd) && Solves(ut, DecayedKBeta(x, base, c, kd), w, c, kd)
  }

  /** Row t of w read against the memory column `st`. */
  function Recall(w: Mat, st: int -> real, kd: nat): int -> real {
    t => Dot(Row(w, t), st, 0, kd)
  }

  /** v_new of the chunk: the solved values minus the solved decayed keys read against the carried memory. */
  function VNew(u: Mat, w: Mat, st: int -> real, kd: nat, m: int): int -> real {
    t => At2(u, t, m) - Recall(w, st, kd)(t)
  }

  /** If w solves L w = b, then its readings of any column solve L y = readings of b. */
  lemma RecallSolves(l: Mat, b: Mat, w: Mat, st: int -> real, n: nat, kd: nat, t: nat)
    requires Solves(l, b, w, n, kd) && t < n
    ensures Recall(w, st, kd)(t) == Recall(b, st, kd)(t) - Dot(Recall(w, st, kd), Row(l, t), 0, t)
  {
    var entry := (i: int, s: int) => At2(w, s, i);
    var below, readings := Rows(entry, Row(l, t), 0, t), Columns(entry, st, 0, kd);
    forall i | 0 <= i < kd ensures Row(b, t)(i) == Row(w, t)(i) + below(i) {
      hide Dot;
      assert below(i) == Dot(s => entry(i, s), Row(l, t), 0, t);
      DotExt(s => entry(i, s), Row(l, t), Col(w, i), Row(l, t), 0, t);
      DotComm(Col(w, i), Row(l, t), 0, t);
      assert At2(w, t, i) + Below(l, w, t, i) == At2(b, t, i);
    }
    hide Dot, Rows, Solves;
    DotAdd(Row(b, t), Row(w, t), below, st, 0, kd);
    DotSwap(entry, st, 0, kd, Row(l, t), 0, t);
    forall s | 0 <= s < t ensures readings(s) == Recall(w, st, kd)(s) {
      DotExt(i => entry(i, s), st, Row(w, s), st, 0, kd);
    }
    DotExt(readings, Row(l, t), Recall(w, st, kd), Row(l, t), 0, t);
  }

  lemma UtEntry(x: Inputs, base: nat, c: nat, kd: nat, t: nat, s: nat)
    requires t < c && s < c
    ensures At2(UtSystem(x, base, c, kd), t, s) == At(x.beta, base + t) * Overlap(x.k, x, kd, base, t)(s)
  {
    hide Dot, Prod;
    var b := At(x.beta, base + t);
    DotScale(KBeta(x, base + t), b, Row(x.k, base + t), Row(x.k, base + s), 0, kd);
    Assoc(b, Gram(x.k, base + t, x.k, base + s, kd), Pairwise(x, base, t, s));
  }

  /** Readings of the decayed, beta-scaled keys. */
  lemma CarriedRow(x: Inputs, kd: nat, s0: Mat, base: nat, c: nat, t: nat, m: int)
    requires t < c
    ensures Recall(DecayedKBeta(x, base, c, kd), Memory(x, kd, s0, base, m), kd)(t)
         == At(x.beta, base + t) * Carried(x.k, x, kd, s0, base, t, m)
  {
    var row := Row(DecayedKBeta(x, base, c, kd), t);
    var b, g, mem, k :=
      At(x.beta, base + t), Prod(x, base, base + t + 1), Memory(x, kd, s0, base, m), Row(x.k, base + t);
    forall i | 0 <= i < kd ensures row(i) == (b * g) * k(i) {
      DecayedEntry(x, base, c, kd, t, i);
      MulEq(b * g, b * g, At2(x.k, base + t, i), k(i));
    }
    hide Dot, Prod, DecayedKBeta, State, Memory;
    DotScale(row, b * g, k, mem, 0, kd);
    DotComm(k, mem, 0, kd);
    Assoc(b, g, Dot(mem, k, 0, kd));
  }

  lemma DecayedEntry(x: Inputs, base: nat, c: nat, kd: nat, t: nat, i: int)
    requires t < c && 0 <= i < kd
    ensures At2(DecayedKBeta(x, base, c, kd), t, i)
         == (At(x.beta, base + t) * Prod(x, base, base + t + 1)) * At2(x.k, base + t, i)
  {
    var b, k, g := At(x.beta, base + t), At2(x.k, base + t, i), Prod(x, base, base + t + 1);
    assert At2(DecayedKBeta(x, base, c, kd), t, i) == KBeta(x, base + t)(i) * g;
    MulEq(KBeta(x, base + t)(i), b * k, g, g);
    Rearrange(b, k, g);
  }

  lemma MulEq(a: real, a': real, b: real, b': real)
    requires a == a' && b == b'
    ensures a * b == a' * b'
  {
  }

  lemma Rearrange(b: real, k: real, g: real)
    ensures (b * k) * g == (b * g) * k
  {
  }

  /** The two solves, read against the carried memory, satisfy the system that the corrections satisfy. */
  lemma VNewRow(x: Inputs, kd: nat, vd: nat, base: nat, c: nat, u: Mat, w: Mat, st: int -> real, t: nat, m: nat)
    requires ChunkSystems(x, base, c, kd, vd, u, w) && t < c && m < vd
    ensures VNew(u, w, st, kd, m)(t)
         == At2(x.v, base + t, m) * At(x.beta, base + t) - Recall(DecayedKBeta(x, base, c, kd), st, kd)(t)
          - Dot(VNew(u, w, st, kd, m), Row(UtSystem(x, base, c, kd), t), 0, t)
  {
    var ut := UtSystem(x, base, c, kd);
    assert At2(u, t, m) + Below(ut, u, t, m) == At2(x.v, base + t, m) * At(x.beta, base + t);
    RecallSolves(ut, DecayedKBeta(x, base, c, kd), w, st, c, kd, t);
    var both, uPart, wPart := VNew(u, w, st, kd, m), Col(u, m), Recall(w, st, kd);
    assert forall s :: uPart(s) == both(s) + wPart(s);
    hide Dot, UtSystem, DecayedKBeta, Recall, Solves;
    DotAdd(uPart, both, wPart, Row(ut, t), 0, t);
    DotComm(Row(ut, t), uPart, 0, t);
  }

  /** The chunk's v_new rows are exactly the corrections the one-token recurrence writes. */
  lemma {:induction false} VNewIsDelta(x: Inputs, kd: nat, vd: nat, s0: Mat, base: nat, c: nat, u: Mat, w: Mat, t: nat,
                                       m: nat)
    requires ChunkSystems(x, base, c, kd, vd, u, w) && t < c && m < vd
    ensures VNew(u, w, Memory(x, kd, s0, base, m), kd, m)(t) == Delta(x, kd, s0, base + t, m)
  {
    hide State, Delta, Prod, Dot, UtSystem, DecayedKBeta, Recall, Carried, Overlap, VNew, ChunkSystems;
    var st := Memory(x, kd, s0, base, m);
    var b, row := At(x.beta, base + t), Row(UtSystem(x, base, c, kd), t);
    var mine, theirs := VNew(u, w, st, kd, m), Deltas(x, kd, s0, base, m);
    VNewRow(x, kd, vd, base, c, u, w, st, t, m);
    CarriedRow(x, kd, s0, base, c, t, m);
    DeltaInChunk(x, kd, s0, base, t, m);
    forall s | 0 <= s < t ensures mine(s) == theirs(s) {
      VNewIsDelta(x, kd, vd, s0, base, c, u, w, s, m);
    }
    DotExt(mine, row, theirs, row, 0, t);
    DotComm(theirs, row, 0, t);
    var ov := Overlap(x.k, x, kd, base, t);
    forall s | 0 <= s < t ensures row(s) == b * ov(s) {
      UtEntry(x, base, c, kd, t, s);
    }
    DotScale(row, b, ov, theirs, 0, t);
    FactorOut(b, At2(x.v, base + t, m), Carried(x.k, x, kd, s0, base, t, m), Dot(ov, theirs, 0, t));
  }

  lemma FactorOut(b: real, v: real, p: real, q: real)
    ensures (v - (p + q)) * b == v * b - b * p - b * q
  {
  }

  // ---------------------------------------------------------------------------
  // One chunk of the chunked rule
  // ---------------------------------------------------------------------------

  /** v_new: new_values minus k_cumdecay times the carried state. */
  function ChunkValues(u: Mat, w: Mat, st: Mat, c: nat, kd: nat, vd: nat): (a: Mat)
    ensures IsMat(a, c, vd)
  {
    Build(c, vd, (t, m) => At2(u, t, m) - Dot(Row(w, t), Col(st, m), 0, kd))
  }

  /** Row t of the queries, decayed from the start of the chunk. */
  function DecayedQuery(x: Inputs, base: nat, t: int): int -> real {
    i => Prod(x, base, base + t + 1) * At2(x.q, base + t, i)
  }

  /** Output rows: decayed queries against the carried state, plus the intra-chunk weights against v_new. */
  function ChunkOutputs(x: Inputs, base: nat, c: nat, kd: nat, vd: nat, st: Mat, vNew: Mat): (a: Mat)
    ensures IsMat(a, c, vd)
  {
    var intra := Intra(x, base, c, kd);
    Build(c, vd, (t, m) => Dot(DecayedQuery(x, base, t), Col(st, m), 0, kd) + Dot(Row(intra, t), Col(vNew, m), 0, c))
  }

  /** The carried state after the chunk: each key decayed to the end of the chunk, against v_new. */
  function ChunkState(x: Inputs, base: nat, c: nat, kd: nat, vd: nat, st: Mat, vNew: Mat): (a: Mat)
    ensures IsMat(a, kd, vd)
  {
    Build(kd, vd, (i, m) => Prod(x, base, base + c) * At2(st, i, m) + Dot(Weights(x, base, c, i), Col(vNew, m), 0, c))
  }

  ghost predicate IsDeltas(x: Inputs, kd: nat, s0: Mat, base: nat, c: nat, vd: nat, vNew: Mat) {
    IsMat(vNew, c, vd) && forall t, m :: 0 <= t < c && 0 <= m < vd ==> At2(vNew, t, m) == Delta(x, kd, s0, base + t, m)
  }

  lemma ChunkValue(x: Inputs, kd: nat, vd: nat, s0: Mat, base: nat, c: nat, u: Mat, w: Mat, st: Mat, t: nat, m: nat)
    requires IsState(x, kd, s0, base, st, vd) && t < c && m < vd
    ensures At2(ChunkValues(u, w, st, c, kd, vd), t, m) == VNew(u, w, Memory(x, kd, s0, base, m), kd, m)(t)
  {
    hide State, Dot;
    var mem := Memory(x, kd, s0, base, m);
    assert At2(ChunkValues(u, w, st, c, kd, vd), t, m) == At2(u, t, m) - Dot(Row(w, t), Col(st, m), 0, kd);
    assert Recall(w, mem, kd)(t) == Dot(Row(w, t), mem, 0, kd);
    assert VNew(u, w, mem, kd, m)(t) == At2(u, t, m) - Recall(w, mem, kd)(t);
    DotExt(Row(w, t), Col(st, m), Row(w, t), mem, 0, kd);
  }

  lemma ChunkValuesAreDeltas(x: Inputs, kd: nat, vd: nat, s0: Mat, base: nat, c: nat, u: Mat, w: Mat, st: Mat)
    requires ChunkSystems(x, base, c, kd, vd, u, w) && IsState(x, kd, s0, base, st, vd)
    ensures IsDeltas(x, kd, s0, base, c, vd, ChunkValues(u, w, st, c, kd, vd))
  {
    hide State, Delta, Dot, ChunkSystems, ChunkValues, VNew, IsState;
    forall t, m | 0 <= t < c && 0 <= m < vd
      ensures At2(ChunkValues(u, w, st, c, kd, vd), t, m) == Delta(x, kd, s0, base + t, m)
    {
      ChunkValue(x, kd, vd, s0, base, c, u, w, st, t, m);
      VNewIsDelta(x, kd, vd, s0, base, c, u, w, t, m);
    }
  }

  lemma InterPart(x: Inputs, kd: nat, vd: nat, s0: Mat, base: nat, t: nat, m: nat, st: Mat)
    requires IsState(x, kd, s0, base, st, vd) && m < vd
    ensures Dot(DecayedQuery(x, base, t), Col(st, m), 0, kd) == Carried(x.q, x, kd, s0, base, t, m)
  {
    hide State, Prod, Dot;
    var mem := Memory(x, kd, s0, base, m);
    DotScale(DecayedQuery(x, base, t), Prod(x, base, base + t + 1), Row(x.q, base + t), Col(st, m), 0, kd);
    DotExt(Row(x.q, base + t), Col(st, m), Row(x.q, base + t), mem, 0, kd);
    DotComm(Row(x.q, base + t), mem, 0, kd);
  }

  lemma IntraPart(x: Inputs, kd: nat, vd: nat, s0: Mat, base: nat, c: nat, t: nat, m: nat, vNew: Mat)
    requires IsDeltas(x, kd, s0, base, c, vd, vNew) && t < c && m < vd
    ensures Dot(Row(Intra(x, base, c, kd), t), Col(vNew, m), 0, c)
         == Dot(Overlap(x.q, x, kd, base, t), Deltas(x, kd, s0, base, m), 0, t + 1)
  {
    hide Delta, Prod, Dot, Gram;
    var row, col := Row(Intra(x, base, c, kd), t), Col(vNew, m);
    DotSplit(row, col, 0, t + 1, c);
    DotZero(row, col, t + 1, c);
    DotExt(row, col, Overlap(x.q, x, kd, base, t), Deltas(x, kd, s0, base, m), 0, t + 1);
  }

  lemma ChunkOutputsAreOutputs(x: Inputs, kd: nat, vd: nat, s0: Mat, base: nat, c: nat, st: Mat, vNew: Mat)
    requires IsState(x, kd, s0, base, st, vd) && IsDeltas(x, kd, s0, base, c, vd, vNew)
    ensures IsChunkOutputs(x, kd, s0, ChunkOutputs(x, base, c, kd, vd, st, vNew), base, c, vd)
  {
    forall t, m | 0 <= t < c && 0 <= m < vd
      ensures At2(ChunkOutputs(x, base, c, kd, vd, st, vNew), t, m) == Output(x, kd, s0, base + t, m)
    {
      hide State, Delta, Prod, Carried, Overlap, Output, Intra, Dot;
      InterPart(x, kd, vd, s0, base, t, m, st);
      IntraPart(x, kd, vd, s0, base, c, t, m, vNew);
      OutputInChunk(x, kd, s0, base, t, m);
    }
  }

  lemma ChunkStateEntry(x: Inputs, kd: nat, vd: nat, s0: Mat, base: nat, c: nat, st: Mat, vNew: Mat, i: nat, m: nat)
    requires IsState(x, kd, s0, base, st, vd) && IsDeltas(x, kd, s0, base, c, vd, vNew) && i < kd && m < vd
    ensures At2(ChunkState(x, base, c, kd, vd, st, vNew), i, m)
         == Prod(x, base, base + c) * State(x, kd, s0, base, i, m)
          + Dot(Weights(x, base, c, i), Deltas(x, kd, s0, base, m), 0, c)
  {
    hide State, Delta, Prod, Dot, Weights;
    DotExt(Weights(x, base, c, i), Col(vNew, m), Weights(x, base, c, i), Deltas(x, kd, s0, base, m), 0, c);
    MulEq(Prod(x, base, base + c), Prod(x, base, base + c), At2(st, i, m), State(x, kd, s0, base, i, m));
  }

  lemma ChunkStateIsState(x: Inputs, kd: nat, vd: nat, s0: Mat, base: nat, c: nat, st: Mat, vNew: Mat)
    requires IsState(x, kd, s0, base, st, vd) && IsDeltas(x, kd, s0, base, c, vd, vNew)
    ensures IsState(x, kd, s0, base + c, ChunkState(x, base, c, kd, vd, st, vNew), vd)
  {
    hide State, Delta, Prod, Dot, Weights, Deltas, ChunkState, IsDeltas;
    forall i, m | 0 <= i < kd && 0 <= m < vd
      ensures At2(ChunkState(x, base, c, kd, vd, st, vNew), i, m) == State(x, kd, s0, base + c, i, m)
    {
      Unroll(x, kd, s0, base, c, i, m);
      ChunkStateEntry(x, kd, vd, s0, base, c, st, vNew, i, m);
    }
  }

  // ---------------------------------------------------------------------------
  // Zero padding
  // ---------------------------------------------------------------------------

  function ZeroRows(rows: nat, cols: nat): (a: Mat)
    ensures IsMat(a, rows, cols)
  {
    Build(rows, cols, (i, j) => 0.0)
  }

  /** Zero rows, zero beta and log-decay 0 (factor 1) after the last token. */
  function Padded(x: Inputs, pad: nat, kd: nat, vd: nat): Inputs {
    Inputs(x.q + ZeroRows(pad, kd), x.k + ZeroRows(pad, kd), x.v + ZeroRows(pad, vd),
           x.decay + seq(pad, i => 1.0), x.beta + seq(pad, i => 0.0))
  }

  /** Inputs that read the same everywhere. */
  ghost predicate SameReads(x: Inputs, y: Inputs, kd: nat, vd: nat) {
    forall t ::
      && Decay(x, t) == Decay(y, t) && At(x.beta, t) == At(y.beta, t)
      && (forall i :: 0 <= i < kd ==> At2(x.q, t, i) == At2(y.q, t, i) && At2(x.k, t, i) == At2(y.k, t, i))
      && (forall m :: 0 <= m < vd ==> At2(x.v, t, m) == At2(y.v, t, m))
  }

  lemma PaddedReads(x: Inputs, n: nat, pad: nat, kd: nat, vd: nat)
    requires Shaped(x, n, kd, vd)
    ensures SameReads(Padded(x, pad, kd, vd), x, kd, vd)
    ensures Shaped(Padded(x, pad, kd, vd), n + pad, kd, vd)
  {
  }

  lemma {:induction false} SameState(x: Inputs, y: Inputs, kd: nat, vd: nat, s0: Mat, t: nat, i: int, m: int)
    requires SameReads(x, y, kd, vd) && 0 <= i < kd && 0 <= m < vd
    ensures State(x, kd, s0, t, i, m) == State(y, kd, s0, t, i, m)
    decreases t, 0
  {
    hide State, Delta, SameReads;
    if t == 0 {
      StartState(x, kd, s0, i, m);
      StartState(y, kd, s0, i, m);
    } else {
      SameState(x, y, kd, vd, s0, t - 1, i, m);
      SameDelta(x, y, kd, vd, s0, t - 1, m);
      StateStep(x, kd, s0, t, i, m);
      StateStep(y, kd, s0, t, i, m);
      SameToken(x, y, kd, vd, t - 1, i);
    }
  }

  lemma StartState(x: Inputs, kd: nat, s0: Mat, i: int, m: int)
    ensures State(x, kd, s0, 0, i, m) == At2(s0, i, m)
  {
  }

  lemma SameToken(x: Inputs, y: Inputs, kd: nat, vd: nat, t: int, i: int)
    requires SameReads(x, y, kd, vd) && 0 <= i < kd
    ensures Decay(x, t) == Decay(y, t) && At2(x.k, t, i) == At2(y.k, t, i)
  {
    assert Decay(x, t) == Decay(y, t);
  }

  lemma {:induction false} SameDelta(x: Inputs, y: Inputs, kd: nat, vd: nat, s0: Mat, t: nat, m: int)
    requires SameReads(x, y, kd, vd) && 0 <= m < vd
    ensures Delta(x, kd, s0, t, m) == Delta(y, kd, s0, t, m)
    decreases t, 1
  {
    hide State, Dot;
    var f := Scaled(Decay(x, t), i => State(x, kd, s0, t, i, m));
    var g := Scaled(Decay(y, t), i => State(y, kd, s0, t, i, m));
    forall i | 0 <= i < kd ensures f(i) == g(i) {
      SameState(x, y, kd, vd, s0, t, i, m);
    }
    DotExt(f, Row(x.k, t), g, Row(y.k, t), 0, kd);
  }

  lemma SameOutput(x: Inputs, y: Inputs, kd: nat, vd: nat, s0: Mat, t: nat, m: int)
    requires SameReads(x, y, kd, vd) && 0 <= m < vd
    ensures Output(x, kd, s0, t, m) == Output(y, kd, s0, t, m)
  {
    hide State, Dot;
    assert Decay(x, t) == Decay(y, t);
    var f, g := Memory(x, kd, s0, t + 1, m), Memory(y, kd, s0, t + 1, m);
    forall i | 0 <= i < kd ensures f(i) == g(i) {
      SameState(x, y, kd, vd, s0, t + 1, i, m);
    }
    DotExt(f, Row(x.q, t), g, Row(y.q, t), 0, kd);
  }

  /** A token past the end has a zero key and factor 1: the memory is left alone. */
  lemma {:induction false} PaddingKeepsState(x: Inputs, kd: nat, s0: Mat, n: nat, pad: nat, i: int, m: int)
    requires |x.k| == |x.decay| == n
    ensures State(x, kd, s0, n + pad, i, m) == State(x, kd, s0, n, i, m)
  {
    if pad > 0 {
      PaddingKeepsState(x, kd, s0, n, pad - 1, i, m);
      hide Delta, State;
      StateStep(x, kd, s0, n + pad, i, m);
    }
  }

  // ---------------------------------------------------------------------------
  // The chunked rule
  // ---------------------------------------------------------------------------

  method OneChunk(x: Inputs, base: nat, chunk: nat, kd: nat, vd: nat, ghost s0: Mat, st: Mat)
    returns (rows: Mat, st': Mat)
    requires IsState(x, kd, s0, base, st, vd) && 1 <= chunk
    ensures IsChunkOutputs(x, kd, s0, rows, base, chunk, vd)
    ensures IsState(x, kd, s0, base + chunk, st', vd)
  {
    hide State, Output, Delta, UtSystem, VBeta, DecayedKBeta, ChunkValues, ChunkOutputs, ChunkState, Dot;
    var ut := UtSystem(x, base, chunk, kd);
    var newValues := SolveUnitLower(ut, VBeta(x, base, chunk, vd), chunk, vd);
    var kCumdecay := SolveUnitLower(ut, DecayedKBeta(x, base, chunk, kd), chunk, kd);
    var vNew := ChunkValues(newValues, kCumdecay, st, chunk, kd, vd);
    ChunkValuesAreDeltas(x, kd, vd, s0, base, chunk, newValues, kCumdecay, st);
    ChunkOutputsAreOutputs(x, kd, vd, s0, base, chunk, st, vNew);
    ChunkStateIsState(x, kd, vd, s0, base, chunk, st, vNew);
    rows := ChunkOutputs(x, base, chunk, kd, vd, st, vNew);
    st' := ChunkState(x, base, chunk, kd, vd, st, vNew);
  }

  /** Chunk by chunk, with the last chunk zero-padded: the outputs and the memory of the one-token recurrence. */
  method Chunked(x: Inputs, n: nat, kd: nat, vd: nat, chunk: nat, s0: Mat) returns (out: Mat, state: Mat)
    requires Shaped(x, n, kd, vd) && IsMat(s0, kd, vd) && 1 <= chunk
    ensures IsOutputs(x, kd, s0, out, n, vd)
    ensures IsState(x, kd, s0, n, state, vd)
    ensures Computes(x, n, kd, vd, s0, out, state)
  {
    var pad := (chunk - n % chunk) % chunk;
    var p := Padded(x, pad, kd, vd);
    PaddedReads(x, n, pad, kd, vd);
    hide State, Output, Delta, Padded, Dot, SameReads, IsOutputs, IsState;
    var total := n + pad;
    WholeChunks(n, chunk);
    var nc := total / chunk;
    assert nc * chunk == total;
    StateZero(p, kd, s0, vd);
    state := s0;
    var core: Mat := [];
    NoOutputs(p, kd, s0, vd);
    for c := 0 to nc
      invariant c * chunk == |core|
      invariant IsState(p, kd, s0, |core|, state, vd)
      invariant IsOutputs(p, kd, s0, core, |core|, vd)
    {
      var rows;
      rows, state := OneChunk(p, |core|, chunk, kd, vd, s0, state);
      AppendOutputs(p, kd, s0, core, |core|, rows, chunk, vd);
      assert (c + 1) * chunk == c * chunk + chunk;
      core := core + rows;
    }
    assert |core| == total;
    out := core[..n];
    Unpad(p, x, n, pad, kd, vd, s0, core, state);
    hide Computes;
    RecurrenceComputes(x, n, kd, vd, s0, out, state);
  }

  /** Dropping the padded rows; the padded tokens did not touch the memory. */
  lemma Unpad(p: Inputs, x: Inputs, n: nat, pad: nat, kd: nat, vd: nat, s0: Mat, core: Mat, state: Mat)
    requires SameReads(p, x, kd, vd) && Shaped(x, n, kd, vd)
    requires IsOutputs(p, kd, s0, core, n + pad, vd) && IsState(p, kd, s0, n + pad, state, vd)
    ensures IsOutputs(x, kd, s0, core[..n], n, vd) && IsState(x, kd, s0, n, state, vd)
  {
    hide State, Output;
    forall t, m | 0 <= t < n && 0 <= m < vd ensures At2(core[..n], t, m) == Output(x, kd, s0, t, m) {
      SameOutput(p, x, kd, vd, s0, t, m);
    }
    forall i, m | 0 <= i < kd && 0 <= m < vd ensures At2(state, i, m) == State(x, kd, s0, n, i, m) {
      SameState(p, x, kd, vd, s0, n + pad, i, m);
      PaddingKeepsState(x, kd, s0, n, pad, i, m);
    }
  }

  lemma NoOutputs(x: Inputs, kd: nat, s0: Mat, vd: nat)
    ensures IsOutputs(x, kd, s0, [], 0, vd)
  {
  }

  lemma WholeChunks(n: nat, chunk: nat)
    requires 1 <= chunk
    ensures (n + (chunk - n % chunk) % chunk) % chunk == 0
  {
    var q, r := n / chunk, n % chunk;
    assert n == q * chunk + r;
    if r == 0 {
      Modular.MultipleMod(1, chunk);
    } else {
      Modular.DivModUnique(chunk - r, chunk, 0, chunk - r);
      Modular.MultipleMod(q + 1, chunk);
      assert (q + 1) * chunk == q * chunk + chunk;
    }
  }

  lemma AppendOutputs(x: Inputs, kd: nat, s0: Mat, core: Mat, base: nat, rows: Mat, c: nat, vd: nat)
    requires IsOutputs(x, kd, s0, core, base, vd) && IsChunkOutputs(x, kd, s0, rows, base, c, vd)
    ensures IsOutputs(x, kd, s0, core + rows, base + c, vd)
  {
    hide Output;
    forall t, m | 0 <= t < base + c && 0 <= m < vd ensures At2(core + rows, t, m) == Output(x, kd, s0, t, m) {
      if base <= t {
        assert At2(rows, t - base, m) == Output(x, kd, s0, base + (t - base), m);
        assert base + (t - base) == t;
      }
    }
  }
}
