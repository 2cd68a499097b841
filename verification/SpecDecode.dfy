/**
 * Draft-and-verify decoding. Drafters are arbitrary functions: whatever they propose,
 * only tokens the main model would pick greedily are emitted.
 */
module SpecDecode {
  import opened Prelude

  // ---------------------------------------------------------------------------
  // The incremental main model and its greedy stream
  // ---------------------------------------------------------------------------

  /** `prefill` and `step` return the cache, the logits for the next token and the hidden row of the last one. */
  datatype Main<!S, !L, !H> = Main(prefill: seq<int> -> (S, L, H), step: (S, int) -> (S, L, H), pick: L -> int)

  /** A draft head: a fresh state at a position, and one step from the last token and hidden row. */
  datatype Drafter<!M, !L, !H> = Drafter(seed: nat -> M, step: (M, int, H) -> (M, L, H))

  /** The next n greedy tokens from a cache whose pending logits are `lg`. */
  function Greedy<S, L, H>(m: Main<S, L, H>, st: S, lg: L, n: nat): (out: seq<int>)
    ensures |out| == n
  {
    if n == 0 then []
    else
      var p := m.pick(lg);
      var (st', lg', _) := m.step(st, p);
      [p] + Greedy(m, st', lg', n - 1)
  }

  function GreedyOf<S, L, H>(m: Main<S, L, H>, prompt: seq<int>, n: nat): (out: seq<int>)
    ensures |out| == n
  {
    var (st, lg, _) := m.prefill(prompt);
    Greedy(m, st, lg, n)
  }

  /** The plain loop: one token per forward pass. */
  method GenerateGreedy<S(!new), L(!new), H(!new)>(m: Main<S, L, H>, prompt: seq<int>,
                                                   maxNew: nat) returns (out: seq<int>)
    ensures out == GreedyOf(m, prompt, maxNew)
  {
    var (st, lg, _) := m.prefill(prompt);
    out := [];
    for i := 0 to maxNew
      invariant |out| == i
      invariant out + Greedy(m, st, lg, maxNew - i) == GreedyOf(m, prompt, maxNew)
    {
      var p := m.pick(lg);
      ghost var was := out;
      var (st', lg', _) := m.step(st, p);
      assert was + ([p] + Greedy(m, st', lg', maxNew - i - 1)) == (was + [p]) + Greedy(m, st', lg', maxNew - i - 1);
      out := out + [p];
      st, lg := st', lg';
    }
  }

  /** The tokens drafted from one verified position. */
  function Drafts<M, L, H>(d: Drafter<M, L, H>, pick: L -> int, st: M, tok: int, row: H, n: nat): (out: seq<int>)
    ensures |out| == n
    decreases n
  {
    if n == 0 then []
    else
      var (st', lg, row') := d.step(st, tok, row);
      [pick(lg)] + Drafts(d, pick, st', pick(lg), row', n - 1)
  }

  method DraftTokens<M(!new), L(!new), H(!new)>(d: Drafter<M, L, H>, pick: L -> int, st0: M, tok0: int, row0: H, n: nat)
    returns (drafts: seq<int>)
    ensures drafts == Drafts(d, pick, st0, tok0, row0, n)
  {
    var st, tok, row := st0, tok0, row0;
    drafts := [];
    for i := 0 to n
      invariant |drafts| == i
      invariant drafts + Drafts(d, pick, st, tok, row, n - i) == Drafts(d, pick, st0, tok0, row0, n)
    {
      ghost var was, rest := drafts, Drafts(d, pick, st, tok, row, n - i);
      var (st', lg, row') := d.step(st, tok, row);
      tok := pick(lg);
      assert rest == [tok] + Drafts(d, pick, st', tok, row', n - i - 1);
      assert was + rest == (was + [tok]) + Drafts(d, pick, st', tok, row', n - i - 1);
      drafts := drafts + [tok];
      st, row := st', row';
    }
  }

  /** Cache, pending logits and hidden row after the first n greedy tokens. */
  ghost function After<S, L, H>(m: Main<S, L, H>, prompt: seq<int>, n: nat): (S, L, H) {
    if n == 0 then m.prefill(prompt)
    else
      var (st, lg, _) := After(m, prompt, n - 1);
      m.step(st, m.pick(lg))
  }

  /** The n-th greedy token. */
  ghost function Token<S, L, H>(m: Main<S, L, H>, prompt: seq<int>, n: nat): int {
    m.pick(After(m, prompt, n).1)
  }

  /** What is drafted once n tokens are out: from the last token, its hidden row and its position. */
  ghost function DraftAt<S, M, L, H>(m: Main<S, L, H>, d: Drafter<M, L, H>, prompt: seq<int>, numDraft: nat, n: nat)
    : (drafts: seq<int>)
    requires |prompt| > 0
    ensures |drafts| == numDraft
  {
    var last := if n == 0 then prompt[|prompt| - 1] else Token(m, prompt, n - 1);
    Drafts(d, m.pick, d.seed(|prompt| - 1 + n), last, After(m, prompt, n).2, numDraft)
  }

  /** How many of the drafts from k on are the greedy tokens, up to the first that is not and to maxNew. */
  ghost function Agreeing<S, L, H>(m: Main<S, L, H>, prompt: seq<int>, maxNew: nat, drafts: seq<int>, n: nat,
                                   k: nat): (a: nat)
    ensures k <= |drafts| ==> k + a <= |drafts|
    ensures n + k <= maxNew ==> n + k + a <= maxNew
    ensures forall i :: k <= i < k + a ==> i < |drafts| && drafts[i] == Token(m, prompt, n + i)
    ensures k + a < |drafts| && n + k + a < maxNew ==> drafts[k + a] != Token(m, prompt, n + k + a)
    decreases |drafts| - k
  {
    if k >= |drafts| || n + k >= maxNew || drafts[k] != Token(m, prompt, n + k) then 0
    else 1 + Agreeing(m, prompt, maxNew, drafts, n, k + 1)
  }

  /**
   * Drafts accepted once n tokens are out. A round accepts the drafts that agree; where one
   * does not, the main model's own token follows and is not counted.
   */
  ghost function AcceptedFrom<S, M, L, H>(m: Main<S, L, H>, d: Drafter<M, L, H>, prompt: seq<int>, maxNew: nat,
                                      numDraft: nat, n: nat): nat
    requires |prompt| > 0 && numDraft >= 1
    decreases maxNew - n
  {
    if n >= maxNew then 0
    else
      var a := Agreeing(m, prompt, maxNew, DraftAt(m, d, prompt, numDraft, n), n, 0);
      var next := if a == numDraft then n + a else n + a + 1;
      a + AcceptedFrom(m, d, prompt, maxNew, numDraft, next)
  }

  /**
   * Draft from the verified position, then compare with the main model one token at a
   * time: an accepted token and a corrected one both advance the main cache. The output
   * is the plain loop's, whatever the drafter proposes.
   */
  method GenerateGreedyMtp<S(!new), M(!new), L(!new), H(!new)>(
      m: Main<S, L, H>, d: Drafter<M, L, H>, prompt: seq<int>, maxNew: nat, numDraft: nat)
    returns (out: seq<int>, drafted: nat, accepted: nat)
    requires |prompt| > 0 && numDraft >= 1
    ensures out == GreedyOf(m, prompt, maxNew)
    ensures accepted <= drafted == |out| == maxNew
    ensures accepted == AcceptedFrom(m, d, prompt, maxNew, numDraft, 0)
  {
    var (st, pending, lastRow) := m.prefill(prompt);
    out, drafted, accepted := [], 0, 0;
    var lastTok := prompt[|prompt| - 1];
    var pos := |prompt| - 1;
    hide Drafts, Greedy, GreedyOf, Between, InRound, AcceptedFrom, Agreeing, After, Token, IsGreedy, Current, DraftAt;
    Begins(m, d, prompt, maxNew, numDraft);
    while |out| < maxNew
      invariant drafted == |out| <= maxNew
      invariant Between(m, d, prompt, maxNew, numDraft, Vars(st, pending, lastRow, lastTok, pos, out, accepted))
      decreases maxNew - |out|
    {
      RoundBegins(m, d, prompt, maxNew, numDraft, Vars(st, pending, lastRow, lastTok, pos, out, accepted));
      var drafts := DraftTokens(d, m.pick, d.seed(pos), lastTok, lastRow, numDraft);
      ghost var start := |out|;
      var k := 0;
      while k < |drafts|
        invariant 0 <= k <= |drafts| == numDraft && |out| == start + k < maxNew
        invariant drafted == |out|
        invariant InRound(m, d, prompt, maxNew, numDraft, Vars(st, pending, lastRow, lastTok, pos, out, accepted),
                          drafts, start, k)
      {
        var p := m.pick(pending);
        drafted := drafted + 1;
        ghost var was := Vars(st, pending, lastRow, lastTok, pos, out, accepted);
        if drafts[k] != p {
          out := out + [p];
          pos := pos + 1;
          if |out| < maxNew {
            var (st', pending', row') := m.step(st, p);
            st, pending, lastRow := st', pending', row';
          }
          lastTok := p;
          Differs(m, d, prompt, maxNew, numDraft, was, drafts, start, k,
                  Vars(st, pending, lastRow, lastTok, pos, out, accepted));
          break;
        }
        accepted := accepted + 1;
        out := out + [drafts[k]];
        pos := pos + 1;
        if |out| >= maxNew {
          lastTok := drafts[k];
          AgreesLast(m, d, prompt, maxNew, numDraft, was, drafts, start, k,
                     Vars(st, pending, lastRow, lastTok, pos, out, accepted));
          break;
        }
        var (st', pending', row') := m.step(st, drafts[k]);
        st, pending, lastRow := st', pending', row';
        lastTok := drafts[k];
        Agrees(m, d, prompt, maxNew, numDraft, was, drafts, start, k,
               Vars(st, pending, lastRow, lastTok, pos, out, accepted));
        k := k + 1;
      }
      RoundEnds(m, d, prompt, maxNew, numDraft, Vars(st, pending, lastRow, lastTok, pos, out, accepted), drafts,
                start, k);
    }
    Ends(m, d, prompt, maxNew, numDraft, Vars(st, pending, lastRow, lastTok, pos, out, accepted));
  }

  ghost predicate IsGreedy<S, L, H>(m: Main<S, L, H>, prompt: seq<int>, out: seq<int>) {
    forall i :: 0 <= i < |out| ==> out[i] == Token(m, prompt, i)
  }

  lemma GreedyAll<S, L, H>(m: Main<S, L, H>, prompt: seq<int>, out: seq<int>)
    requires IsGreedy(m, prompt, out)
    ensures out == GreedyOf(m, prompt, |out|)
  {
    forall i | 0 <= i < |out| ensures out[i] == GreedyOf(m, prompt, |out|)[i] {
      GreedyToken(m, prompt, 0, |out|, i);
    }
  }

  /** The loop's variables. */
  datatype Vars<S, L, H> = Vars(st: S, pending: L, row: H, tok: int, pos: int, out: seq<int>, accepted: nat)

  /** They hold the first tokens of the greedy stream and the main model's state after them. */
  ghost predicate Current<S, L, H>(m: Main<S, L, H>, prompt: seq<int>, v: Vars<S, L, H>)
    requires |prompt| > 0
  {
    && (v.st, v.pending, v.row) == After(m, prompt, |v.out|) && v.pos == |prompt| - 1 + |v.out|
    && v.tok == if |v.out| == 0 then prompt[|prompt| - 1] else Token(m, prompt, |v.out| - 1)
  }

  /** Between two rounds. */
  ghost predicate Between<S, M, L, H>(m: Main<S, L, H>, d: Drafter<M, L, H>, prompt: seq<int>, maxNew: nat,
                                      numDraft: nat, v: Vars<S, L, H>)
    requires |prompt| > 0 && numDraft >= 1
  {
    && IsGreedy(m, prompt, v.out) && |v.out| <= maxNew && (|v.out| < maxNew ==> Current(m, prompt, v))
    && v.accepted + AcceptedFrom(m, d, prompt, maxNew, numDraft, |v.out|) ==
       AcceptedFrom(m, d, prompt, maxNew, numDraft, 0)
  }

  /** Inside a round, with k of its drafts accepted. */
  ghost predicate InRound<S, M, L, H>(m: Main<S, L, H>, d: Drafter<M, L, H>, prompt: seq<int>, maxNew: nat,
                                      numDraft: nat, v: Vars<S, L, H>, drafts: seq<int>, n: nat, k: nat)
    requires |prompt| > 0 && numDraft >= 1
  {
    && IsGreedy(m, prompt, v.out) && |v.out| == n + k < maxNew && Current(m, prompt, v)
    && v.accepted + Remaining(m, d, prompt, maxNew, numDraft, drafts, n, k) ==
       AcceptedFrom(m, d, prompt, maxNew, numDraft, 0)
  }

  /** Accepted from draft k on, in the round that began with n tokens and after it. */
  ghost function Remaining<S, M, L, H>(m: Main<S, L, H>, d: Drafter<M, L, H>, prompt: seq<int>, maxNew: nat,
                                       numDraft: nat, drafts: seq<int>, n: nat, k: nat): nat
    requires |prompt| > 0 && numDraft >= 1
  {
    var a := Agreeing(m, prompt, maxNew, drafts, n, k);
    a + AcceptedFrom(m, d, prompt, maxNew, numDraft, n + k + a + if k + a == numDraft then 0 else 1)
  }

  lemma RemainingStep<S, M, L, H>(m: Main<S, L, H>, d: Drafter<M, L, H>, prompt: seq<int>, maxNew: nat, numDraft: nat,
                                  drafts: seq<int>, n: nat, k: nat)
    requires |prompt| > 0 && numDraft >= 1 && k < |drafts| && n + k < maxNew
    requires drafts[k] == Token(m, prompt, n + k)
    ensures Remaining(m, d, prompt, maxNew, numDraft, drafts, n, k) ==
      1 + if n + k + 1 == maxNew then 0 else Remaining(m, d, prompt, maxNew, numDraft, drafts, n, k + 1)
    ensures AcceptedFrom(m, d, prompt, maxNew, numDraft, maxNew) == 0
  {
    AgreeingStep(m, prompt, maxNew, drafts, n, k);
  }

  lemma Begins<S, M, L, H>(m: Main<S, L, H>, d: Drafter<M, L, H>, prompt: seq<int>, maxNew: nat, numDraft: nat)
    requires |prompt| > 0 && numDraft >= 1
    ensures var (st, pending, row) := m.prefill(prompt);
      Between(m, d, prompt, maxNew, numDraft, Vars(st, pending, row, prompt[|prompt| - 1], |prompt| - 1, [], 0))
  {
  }

  lemma RoundBegins<S, M, L, H>(m: Main<S, L, H>, d: Drafter<M, L, H>, prompt: seq<int>, maxNew: nat, numDraft: nat,
                                v: Vars<S, L, H>)
    requires |prompt| > 0 && numDraft >= 1 && Between(m, d, prompt, maxNew, numDraft, v) && |v.out| < maxNew
    ensures v.pos >= 0
    ensures InRound(m, d, prompt, maxNew, numDraft, v, Drafts(d, m.pick, d.seed(v.pos), v.tok, v.row, numDraft),
                    |v.out|, 0)
  {
    assert Drafts(d, m.pick, d.seed(v.pos), v.tok, v.row, numDraft) == DraftAt(m, d, prompt, numDraft, |v.out|);
  }

  /** w holds the main model's own token after v, and its state when another token is needed. */
  ghost predicate Advances<S, L, H>(m: Main<S, L, H>, maxNew: nat, v: Vars<S, L, H>, w: Vars<S, L, H>) {
    var p := m.pick(v.pending);
    && w.tok == p && w.pos == v.pos + 1 && w.out == v.out + [p]
    && (|w.out| < maxNew ==> (w.st, w.pending, w.row) == m.step(v.st, p))
  }

  /** A draft that is not the greedy token ends the round. */
  lemma Differs<S, M, L, H>(m: Main<S, L, H>, d: Drafter<M, L, H>, prompt: seq<int>, maxNew: nat, numDraft: nat,
                            v: Vars<S, L, H>, drafts: seq<int>, n: nat, k: nat, w: Vars<S, L, H>)
    requires |prompt| > 0 && numDraft >= 1 && k < |drafts| == numDraft
    requires InRound(m, d, prompt, maxNew, numDraft, v, drafts, n, k) && Advances(m, maxNew, v, w)
    requires drafts[k] != m.pick(v.pending) && w.accepted == v.accepted
    ensures Between(m, d, prompt, maxNew, numDraft, w)
  {
    hide Drafts;
  }

  /** One that is goes on to the next draft, */
  lemma Agrees<S, M, L, H>(m: Main<S, L, H>, d: Drafter<M, L, H>, prompt: seq<int>, maxNew: nat, numDraft: nat,
                           v: Vars<S, L, H>, drafts: seq<int>, n: nat, k: nat, w: Vars<S, L, H>)
    requires |prompt| > 0 && numDraft >= 1 && k < |drafts| == numDraft
    requires InRound(m, d, prompt, maxNew, numDraft, v, drafts, n, k) && Advances(m, maxNew, v, w)
    requires drafts[k] == m.pick(v.pending) && w.accepted == v.accepted + 1 && |w.out| < maxNew
    ensures InRound(m, d, prompt, maxNew, numDraft, w, drafts, n, k + 1)
  {
    CurrentNext(m, prompt, maxNew, v, w);
    hide Drafts, Agreeing, Current, IsGreedy, Token, After, AcceptedFrom, Remaining, Advances;
    RemainingStep(m, d, prompt, maxNew, numDraft, drafts, n, k);
  }

  /** unless no token is needed any more. */
  lemma AgreesLast<S, M, L, H>(m: Main<S, L, H>, d: Drafter<M, L, H>, prompt: seq<int>, maxNew: nat, numDraft: nat,
                               v: Vars<S, L, H>, drafts: seq<int>, n: nat, k: nat, w: Vars<S, L, H>)
    requires |prompt| > 0 && numDraft >= 1 && k < |drafts| == numDraft
    requires InRound(m, d, prompt, maxNew, numDraft, v, drafts, n, k) && Advances(m, maxNew, v, w)
    requires drafts[k] == m.pick(v.pending) && w.accepted == v.accepted + 1 && |w.out| >= maxNew
    ensures Between(m, d, prompt, maxNew, numDraft, w)
  {
    CurrentNext(m, prompt, maxNew, v, w);
    hide Drafts, Agreeing, Current, IsGreedy, Token, After, AcceptedFrom, Remaining, Advances;
    RemainingStep(m, d, prompt, maxNew, numDraft, drafts, n, k);
  }

  lemma AgreeingStep<S, L, H>(m: Main<S, L, H>, prompt: seq<int>, maxNew: nat, drafts: seq<int>, n: nat, k: nat)
    requires k < |drafts| && n + k < maxNew && drafts[k] == Token(m, prompt, n + k)
    ensures Agreeing(m, prompt, maxNew, drafts, n, k) == 1 + Agreeing(m, prompt, maxNew, drafts, n, k + 1)
    ensures n + k + 1 == maxNew ==> Agreeing(m, prompt, maxNew, drafts, n, k + 1) == 0
  {
  }

  lemma CurrentNext<S, L, H>(m: Main<S, L, H>, prompt: seq<int>, maxNew: nat, v: Vars<S, L, H>, w: Vars<S, L, H>)
    requires |prompt| > 0 && IsGreedy(m, prompt, v.out) && Current(m, prompt, v) && Advances(m, maxNew, v, w)
    ensures m.pick(v.pending) == Token(m, prompt, |v.out|) && |w.out| == |v.out| + 1
    ensures IsGreedy(m, prompt, w.out) && (|w.out| < maxNew ==> Current(m, prompt, w))
  {
  }

  lemma RoundEnds<S, M, L, H>(m: Main<S, L, H>, d: Drafter<M, L, H>, prompt: seq<int>, maxNew: nat, numDraft: nat,
                              v: Vars<S, L, H>, drafts: seq<int>, n: nat, k: nat)
    requires |prompt| > 0 && numDraft >= 1 && k <= |drafts| == numDraft
    ensures k == |drafts| && InRound(m, d, prompt, maxNew, numDraft, v, drafts, n, k) ==>
      Between(m, d, prompt, maxNew, numDraft, v)
  {
  }

  lemma Ends<S, M, L, H>(m: Main<S, L, H>, d: Drafter<M, L, H>, prompt: seq<int>, maxNew: nat, numDraft: nat,
                         v: Vars<S, L, H>)
    requires |prompt| > 0 && numDraft >= 1 && Between(m, d, prompt, maxNew, numDraft, v) && |v.out| == maxNew
    ensures v.out == GreedyOf(m, prompt, maxNew) && v.accepted <= maxNew
    ensures v.accepted == AcceptedFrom(m, d, prompt, maxNew, numDraft, 0)
  {
    GreedyAll(m, prompt, v.out);
    AcceptedAtMost(m, d, prompt, maxNew, numDraft, 0);
  }

  lemma {:induction false} AcceptedAtMost<S, M, L, H>(m: Main<S, L, H>, d: Drafter<M, L, H>, prompt: seq<int>,
                                                      maxNew: nat, numDraft: nat, n: nat)
    requires |prompt| > 0 && numDraft >= 1
    ensures AcceptedFrom(m, d, prompt, maxNew, numDraft, n) <= if n < maxNew then maxNew - n else 0
    decreases maxNew - n
  {
    if n < maxNew {
      var a := Agreeing(m, prompt, maxNew, DraftAt(m, d, prompt, numDraft, n), n, 0);
      hide DraftAt, Token;
      AcceptedAtMost(m, d, prompt, maxNew, numDraft, if a == numDraft then n + a else n + a + 1);
    }
  }

  /** The greedy stream, token by token. */
  lemma {:induction false} GreedyToken<S, L, H>(m: Main<S, L, H>, prompt: seq<int>, k: nat, n: nat, i: nat)
    requires i < n
    ensures var (st, lg, _) := After(m, prompt, k); Greedy(m, st, lg, n)[i] == Token(m, prompt, k + i)
    decreases i
  {
    if i > 0 {
      GreedyToken(m, prompt, k + 1, n - 1, i - 1);
      assert k + 1 + (i - 1) == k + i;
    }
  }

  // ---------------------------------------------------------------------------
  // Verification by recomputing the prefix
  // ---------------------------------------------------------------------------

  type Next = seq<int> -> int

  /** A block drafter: at most `n` proposals after the prefix. */
  type Block = (seq<int>, nat) -> seq<int>

  function GreedyTokens(next: Next, ids: seq<int>, n: nat): (out: seq<int>)
    ensures |out| == n
    decreases n
  {
    if n == 0 then [] else [next(ids)] + GreedyTokens(next, ids + [next(ids)], n - 1)
  }

  /** The tokens before the first stop id. */
  function CutAtStop(tokens: seq<int>, stops: set<int>): (out: seq<int>)
  {
    if tokens == [] || tokens[0] in stops then [] else [tokens[0]] + CutAtStop(tokens[1..], stops)
  }

  lemma {:induction false} CutIsLongestFree(tokens: seq<int>, stops: set<int>)
    ensures CutAtStop(tokens, stops) <= tokens
    ensures forall i :: 0 <= i < |CutAtStop(tokens, stops)| ==> tokens[i] !in stops
    ensures |CutAtStop(tokens, stops)| < |tokens| ==> tokens[|CutAtStop(tokens, stops)|] in stops
  {
    if tokens != [] && tokens[0] !in stops {
      CutIsLongestFree(tokens[1..], stops);
    }
  }

  /** Plain greedy generation: it never extends a stop id and never emits one. */
  function Plain(next: Next, ids: seq<int>, n: nat, stops: set<int>): seq<int>
    requires |ids| > 0
  {
    if ids[|ids| - 1] in stops then [] else CutAtStop(GreedyTokens(next, ids, n), stops)
  }

  /** How many leading draft tokens the main model agrees with. */
  function Accepted(next: Next, ids: seq<int>, draft: seq<int>): (a: nat)
    ensures a <= |draft|
    decreases |draft|
  {
    if draft == [] || next(ids) != draft[0] then 0 else 1 + Accepted(next, ids + [draft[0]], draft[1..])
  }

  function Min(a: int, b: int): int { if a < b then a else b }

  function Proposed(block: Block, ids: seq<int>, n: nat): (d: seq<int>)
    ensures |d| <= n
  {
    var d := block(ids, n);
    d[..Min(n, |d|)]
  }

  /**
   * The ids after the draft-and-verify loop. `reserve` is 1 when the draft leaves room
   * for the corrective token and 0 when it may fill the budget.
   */
  function Run(next: Next, block: Block, numDraft: nat, reserve: nat, ids: seq<int>, left: nat,
               stops: set<int>): seq<int>
    requires |ids| > 0 && reserve <= 1
    decreases left
  {
    if left == 0 || ids[|ids| - 1] in stops then ids
    else
      var draft := Proposed(block, ids, Min(numDraft, left - reserve));
      var a := Accepted(next, ids, draft);
      var ids' := ids + draft[..a];
      if left - a == 0 || next(ids') in stops then ids'
      else Run(next, block, numDraft, reserve, ids' + [next(ids')], left - a - 1, stops)
  }

  /** Verify a draft: the accepted count, and the main model's pick at a mismatch. */
  method Verify(next: Next, ids: seq<int>, draft: seq<int>) returns (accepted: nat, mismatch: Option<int>)
    ensures accepted == Accepted(next, ids, draft)
    ensures mismatch == if accepted < |draft| then Some(next(ids + draft[..accepted])) else None
  {
    accepted, mismatch := 0, None;
    var k := 0;
    assert ids + draft[..0] == ids && draft[0..] == draft;
    while k < |draft|
      invariant 0 <= k <= |draft| && accepted == k && mismatch.None?
      invariant Accepted(next, ids, draft) == k + Accepted(next, ids + draft[..k], draft[k..])
    {
      var g := next(ids + draft[..k]);
      assert draft[k..][0] == draft[k];
      if g != draft[k] {
        mismatch := Some(g);
        break;
      }
      assert (ids + draft[..k]) + [draft[k]] == ids + draft[..k + 1] && draft[k..][1..] == draft[k + 1..];
      k := k + 1;
      accepted := k;
    }
  }

  /** Drafting one token at a time. */
  function Unrolled(mtp: Next): Block {
    (ids: seq<int>, n: nat) => GreedyTokens(mtp, ids, n)
  }

  method DraftWithHead(mtp: Next, ids: seq<int>, nd: nat) returns (draft: seq<int>)
    ensures draft == GreedyTokens(mtp, ids, nd) == Proposed(Unrolled(mtp), ids, nd)
  {
    draft := [];
    var cur := ids;
    for i := 0 to nd
      invariant |draft| == i && cur == ids + draft
      invariant draft + GreedyTokens(mtp, cur, nd - i) == GreedyTokens(mtp, ids, nd)
    {
      ghost var rest := GreedyTokens(mtp, cur, nd - i);
      var tok := mtp(cur);
      assert draft + rest == (draft + [tok]) + rest[1..];
      draft, cur := draft + [tok], cur + [tok];
    }
    assert draft + [] == draft;
  }

  /** The multi-token-prediction loop: one draft token per call of the draft head. */
  method SpecDecodeGreedy(next: Next, mtp: Next, prompt: seq<int>, maxNew: nat, numDraft: int, stops: set<int>)
    returns (r: Result<seq<int>, string>)
    requires |prompt| > 0
    ensures r.Err? <==> numDraft < 1
    ensures r.Ok? ==> r.value == Run(next, Unrolled(mtp), numDraft, 1, prompt, maxNew, stops)
  {
    hide GreedyTokens, Accepted, Proposed;
    if numDraft < 1 { return Err("num_draft must be >= 1"); }
    ghost var block := Unrolled(mtp);
    var ids, n := prompt, 0;
    while n < maxNew
      invariant 0 <= n <= maxNew && |ids| > 0
      invariant Run(next, block, numDraft, 1, ids, maxNew - n, stops) ==
        Run(next, block, numDraft, 1, prompt, maxNew, stops)
      decreases maxNew - n
    {
      if ids[|ids| - 1] in stops { return Ok(ids); }
      var nd := Min(numDraft, maxNew - n - 1);
      var draft := DraftWithHead(mtp, ids, nd);
      var accepted, mismatch := Verify(next, ids, draft);
      ids := ids + draft[..accepted];
      n := n + accepted;
      if n >= maxNew { return Ok(ids); }
      var nxt := if mismatch.Some? then mismatch.value else next(ids);
      if nxt in stops { return Ok(ids); }
      ids := ids + [nxt];
      n := n + 1;
    }
    return Ok(ids);
  }

  /** The block-draft loop: the draft head proposes a whole block. */
  method SpecDecodeBlock(next: Next, block: Block, prompt: seq<int>, maxNew: nat, numDraft: int, stops: set<int>)
    returns (r: Result<seq<int>, string>)
    requires |prompt| > 0
    ensures r.Err? <==> numDraft < 1
    ensures r.Ok? ==> r.value == Run(next, block, numDraft, 0, prompt, maxNew, stops)
  {
    if numDraft < 1 { return Err("num_draft must be >= 1"); }
    var ids, n := prompt, 0;
    while n < maxNew
      invariant 0 <= n <= maxNew && |ids| > 0
      invariant Run(next, block, numDraft, 0, ids, maxNew - n, stops) ==
        Run(next, block, numDraft, 0, prompt, maxNew, stops)
      decreases maxNew - n
    {
      if ids[|ids| - 1] in stops { return Ok(ids); }
      var nd := Min(numDraft, maxNew - n);
      var out := block(ids, nd);
      var draft := out[..Min(nd, |out|)];
      var accepted, mismatch := Verify(next, ids, draft);
      ids := ids + draft[..accepted];
      n := n + accepted;
      if n >= maxNew { return Ok(ids); }
      var nxt := if mismatch.Some? then mismatch.value else next(ids);
      if nxt in stops { return Ok(ids); }
      ids := ids + [nxt];
      n := n + 1;
    }
    return Ok(ids);
  }

  // ---------------------------------------------------------------------------
  // What the loops return
  // ---------------------------------------------------------------------------

  /** Greedy tokens can be taken in two parts. */
  lemma {:induction false} GreedySplit(next: Next, ids: seq<int>, a: nat, n: nat)
    requires a <= n
    ensures GreedyTokens(next, ids, n)[..a] == GreedyTokens(next, ids, a)
    ensures GreedyTokens(next, ids, n) ==
      GreedyTokens(next, ids, a) + GreedyTokens(next, ids + GreedyTokens(next, ids, a), n - a)
    decreases a
  {
    if a == 0 {
      assert ids + [] == ids;
    } else {
      var t := next(ids);
      GreedySplit(next, ids + [t], a - 1, n - 1);
      var h := GreedyTokens(next, ids + [t], a - 1);
      assert (ids + [t]) + h == ids + ([t] + h);
    }
  }

  /** Accepted draft tokens are the main model's own. */
  lemma {:induction false} AcceptedAreGreedy(next: Next, ids: seq<int>, draft: seq<int>)
    ensures draft[..Accepted(next, ids, draft)] == GreedyTokens(next, ids, Accepted(next, ids, draft))
    decreases |draft|
  {
    var a := Accepted(next, ids, draft);
    if a > 0 {
      AcceptedAreGreedy(next, ids + [draft[0]], draft[1..]);
      assert draft[..a] == [draft[0]] + draft[1..][..a - 1];
    }
  }

  /** One round of the loop: the accepted tokens and the corrective one are greedy tokens. */
  lemma RoundIsGreedy(next: Next, ids: seq<int>, draft: seq<int>, left: nat)
    requires |draft| <= left
    ensures var a := Accepted(next, ids, draft); var all := GreedyTokens(next, ids, left);
      && ids + draft[..a] == ids + all[..a]
      && (a < left ==> next(ids + draft[..a]) == all[a])
      && (a < left ==>
          all == all[..a + 1] + GreedyTokens(next, ids + draft[..a] + [next(ids + draft[..a])], left - a - 1))
  {
    var a := Accepted(next, ids, draft);
    AcceptedAreGreedy(next, ids, draft);
    GreedySplit(next, ids, a, left);
    if a < left {
      GreedySplit(next, ids, a + 1, left);
      GreedySplit(next, ids, a, a + 1);
      var h := GreedyTokens(next, ids, a);
      assert GreedyTokens(next, ids + h, 1) == [next(ids + h)];
      assert ids + GreedyTokens(next, ids, a + 1) == ids + h + [next(ids + h)];
    }
  }

  /** One round of the loop, as an equation. */
  lemma RunRound(next: Next, block: Block, numDraft: nat, reserve: nat, ids: seq<int>, left: nat, stops: set<int>,
                 draft: seq<int>, a: nat)
    requires |ids| > 0 && reserve <= 1 && left > 0 && ids[|ids| - 1] !in stops
    requires draft == Proposed(block, ids, Min(numDraft, left - reserve)) && a == Accepted(next, ids, draft)
    ensures a <= |draft| <= left
    ensures var ids' := ids + draft[..a];
      Run(next, block, numDraft, reserve, ids, left, stops)
      == (if left - a == 0 || next(ids') in stops then ids'
          else Run(next, block, numDraft, reserve, ids' + [next(ids')], left - a - 1, stops))
  {
  }

  lemma RunOver(next: Next, block: Block, numDraft: nat, reserve: nat, ids: seq<int>, left: nat, stops: set<int>)
    requires |ids| > 0 && reserve <= 1 && (left == 0 || ids[|ids| - 1] in stops)
    ensures Run(next, block, numDraft, reserve, ids, left, stops) == ids
  {
  }

  /** Whatever is drafted, the ids are the prompt followed by a prefix of the greedy stream. */
  lemma {:induction false} RunIsGreedyPrefix(next: Next, block: Block, numDraft: nat, reserve: nat, ids: seq<int>,
                                             left: nat, stops: set<int>)
    requires |ids| > 0 && reserve <= 1
    ensures ids <= Run(next, block, numDraft, reserve, ids, left, stops) <= ids + GreedyTokens(next, ids, left)
    decreases left
  {
    hide GreedyTokens, Accepted, Proposed, Run;
    if left == 0 || ids[|ids| - 1] in stops {
      RunOver(next, block, numDraft, reserve, ids, left, stops);
    } else {
      var draft := Proposed(block, ids, Min(numDraft, left - reserve));
      var a := Accepted(next, ids, draft);
      RunRound(next, block, numDraft, reserve, ids, left, stops, draft, a);
      RoundIsGreedy(next, ids, draft, left);
      var ids' := ids + draft[..a];
      if left - a > 0 && next(ids') !in stops {
        var ids'' := ids' + [next(ids')];
        RunIsGreedyPrefix(next, block, numDraft, reserve, ids'', left - a - 1, stops);
        PrefixThrough(ids, GreedyTokens(next, ids, left), a, ids'', GreedyTokens(next, ids'', left - a - 1),
          Run(next, block, numDraft, reserve, ids'', left - a - 1, stops));
      }
    }
  }

  lemma PrefixThrough(ids: seq<int>, all: seq<int>, a: nat, ids'': seq<int>, rest: seq<int>, run: seq<int>)
    requires a < |all| && ids'' == ids + all[..a] + [all[a]] && all == all[..a + 1] + rest
    requires ids'' <= run <= ids'' + rest
    ensures ids <= run <= ids + all
  {
    assert ids'' == ids + all[..a + 1];
    assert ids'' + rest == ids + (all[..a + 1] + rest);
  }

  ghost predicate Free(tokens: seq<int>, n: int, stops: set<int>) {
    forall i :: 0 <= i < n && i < |tokens| ==> tokens[i] !in stops
  }

  /** Cutting a stream whose first `a` tokens are free, by what its next token is. */
  lemma CutThrough(all: seq<int>, a: nat, rest: seq<int>, stops: set<int>)
    requires a < |all| && Free(all, a, stops) && all == all[..a + 1] + rest
    ensures all[a] in stops ==> CutAtStop(all, stops) == all[..a]
    ensures all[a] !in stops ==> CutAtStop(all, stops) == all[..a + 1] + CutAtStop(rest, stops)
  {
    if all[a] in stops {
      assert all == all[..a] + all[a..] && all[a..][0] == all[a];
      CutAppend(all[..a], all[a..], stops);
    } else {
      CutAppend(all[..a + 1], rest, stops);
    }
  }

  lemma CutFree(all: seq<int>, stops: set<int>)
    requires Free(all, |all|, stops)
    ensures CutAtStop(all, stops) == all
  {
    CutAppend(all, [], stops);
    assert all + [] == all;
  }

  lemma FreeRest(all: seq<int>, a: nat, rest: seq<int>, n: int, stops: set<int>)
    requires a < |all| && Free(all, n, stops) && all == all[..a + 1] + rest
    ensures Free(rest, n - a - 1, stops)
    ensures a <= n ==> Free(all, a, stops)
  {
    forall i | 0 <= i < n - a - 1 && i < |rest| ensures rest[i] !in stops {
      assert rest[i] == all[a + 1 + i];
    }
  }

  lemma {:induction false} CutAppend(a: seq<int>, b: seq<int>, stops: set<int>)
    requires forall i :: 0 <= i < |a| ==> a[i] !in stops
    ensures CutAtStop(a + b, stops) == a + CutAtStop(b, stops)
  {
    if a == [] {
      assert a + b == b;
    } else {
      assert (a + b)[1..] == a[1..] + b;
      CutAppend(a[1..], b, stops);
    }
  }

  lemma Associate(a: seq<int>, b: seq<int>, c: seq<int>)
    ensures (a + b) + c == a + (b + c)
  {
  }

  /** If the greedy stream meets no stop id where a draft may supply tokens, the loop is plain generation. */
  lemma {:induction false} RunIsPlain(next: Next, block: Block, numDraft: nat, reserve: nat, ids: seq<int>, left: nat,
                                      stops: set<int>)
    requires |ids| > 0 && reserve <= 1 && Free(GreedyTokens(next, ids, left), left - reserve, stops)
    ensures Run(next, block, numDraft, reserve, ids, left, stops) == ids + Plain(next, ids, left, stops)
    decreases left
  {
    hide GreedyTokens, Accepted, Proposed, Free, Run;
    var all := GreedyTokens(next, ids, left);
    if left == 0 || ids[|ids| - 1] in stops {
      RunOver(next, block, numDraft, reserve, ids, left, stops);
      assert left == 0 ==> all == [] && CutAtStop(all, stops) == [];
    } else {
      hide CutAtStop;
      var draft := Proposed(block, ids, Min(numDraft, left - reserve));
      var a := Accepted(next, ids, draft);
      RunRound(next, block, numDraft, reserve, ids, left, stops, draft, a);
      RoundIsGreedy(next, ids, draft, left);
      if left - a == 0 {
        CutFree(all, stops);
        assert all[..a] == all;
      } else {
        var ids'' := ids + draft[..a] + [next(ids + draft[..a])];
        var rest := GreedyTokens(next, ids'', left - a - 1);
        FreeRest(all, a, rest, left - reserve, stops);
        CutThrough(all, a, rest, stops);
        if all[a] !in stops {
          RunIsPlain(next, block, numDraft, reserve, ids'', left - a - 1, stops);
          assert ids'' == ids + all[..a + 1];
          Associate(ids, all[..a + 1], CutAtStop(rest, stops));
        }
      }
    }
  }

  /** Without stop ids the loops return the prompt and exactly `left` greedy tokens, for any drafter. */
  lemma RunIsGreedy(next: Next, block: Block, numDraft: nat, reserve: nat, ids: seq<int>, left: nat)
    requires |ids| > 0 && reserve <= 1
    ensures Run(next, block, numDraft, reserve, ids, left, {}) == ids + GreedyTokens(next, ids, left)
  {
    RunIsPlain(next, block, numDraft, reserve, ids, left, {});
    CutIsLongestFree(GreedyTokens(next, ids, left), {});
  }

  /** A drafter that is wrong until the ids reach length `from` and right afterwards. */
  ghost predicate Baits(next: Next, block: Block, from: nat) {
    forall ids: seq<int>, n: nat :: n >= 1 ==>
      |block(ids, n)| >= 1 && block(ids, n)[0] == Bait(next, from)(ids)
  }

  function Bait(next: Next, from: nat): Next {
    (ids: seq<int>) => if |ids| < from then next(ids) + 1 else next(ids)
  }

  function BaitBlock(next: Next, from: nat): Block {
    (ids: seq<int>, n: nat) => [Bait(next, from)(ids)]
  }

  /** Such a drafter gets the stop id itself accepted. */
  lemma {:induction false} RunOverruns(next: Next, block: Block, numDraft: nat, reserve: nat, ids: seq<int>, left: nat,
                                       stops: set<int>, at: nat)
    requires |ids| > 0 && reserve <= 1 && numDraft >= 1 && ids[|ids| - 1] !in stops
    requires at < left - reserve && Baits(next, block, |ids| + at)
    requires Free(GreedyTokens(next, ids, left), at, stops)
    ensures |Run(next, block, numDraft, reserve, ids, left, stops)| > |ids| + at
    decreases at
  {
    var n := Min(numDraft, left - reserve);
    var draft := Proposed(block, ids, n);
    var a := Accepted(next, ids, draft);
    hide Run, Accepted, Baits, Proposed;
    RunRound(next, block, numDraft, reserve, ids, left, stops, draft, a);
    BaitTaken(next, block, ids, n, at);
    if at == 0 {
      hide GreedyTokens, Free;
      var ids' := ids + draft[..a];
      if left - a > 0 && next(ids') !in stops {
        RunIsGreedyPrefix(next, block, numDraft, reserve, ids' + [next(ids')], left - a - 1, stops);
      }
    } else {
      assert ids + draft[..0] == ids;
      var t, all := next(ids), GreedyTokens(next, ids, left);
      var rest := GreedyTokens(next, ids + [t], left - 1);
      assert all == [t] + rest && all[0] == t && all[..1] == [t];
      FreeRest(all, 0, rest, at, stops);
      hide GreedyTokens, Free;
      assert |ids + [t]| + (at - 1) == |ids| + at;
      RunOverruns(next, block, numDraft, reserve, ids + [t], left - 1, stops, at - 1);
    }
  }

  lemma BaitTaken(next: Next, block: Block, ids: seq<int>, n: nat, at: nat)
    requires n >= 1 && Baits(next, block, |ids| + at)
    ensures Accepted(next, ids, Proposed(block, ids, n)) > 0 <==> at == 0
  {
    assert |block(ids, n)| >= 1 && block(ids, n)[0] == Bait(next, |ids| + at)(ids);
    hide Baits;
    AcceptedFirst(next, ids, Proposed(block, ids, n));
  }

  lemma AcceptedFirst(next: Next, ids: seq<int>, draft: seq<int>)
    requires draft != []
    ensures Accepted(next, ids, draft) > 0 <==> next(ids) == draft[0]
  {
  }

  /** No stop id among the greedy tokens that a draft may supply. */
  ghost predicate StopsLate(next: Next, prompt: seq<int>, maxNew: nat, reserve: nat, stops: set<int>)
    requires |prompt| > 0
  {
    maxNew == 0 || prompt[|prompt| - 1] in stops
    || Free(GreedyTokens(next, prompt, maxNew), maxNew - reserve, stops)
  }

  lemma StopsLateSuffices(next: Next, block: Block, numDraft: nat, reserve: nat, prompt: seq<int>, maxNew: nat,
                          stops: set<int>)
    requires |prompt| > 0 && reserve <= 1 && StopsLate(next, prompt, maxNew, reserve, stops)
    ensures Run(next, block, numDraft, reserve, prompt, maxNew, stops) == prompt + Plain(next, prompt, maxNew, stops)
  {
    if maxNew > 0 && prompt[|prompt| - 1] !in stops {
      RunIsPlain(next, block, numDraft, reserve, prompt, maxNew, stops);
    }
  }

  lemma StopsLateNeeded(next: Next, block: Block, numDraft: nat, reserve: nat, prompt: seq<int>, maxNew: nat,
                        stops: set<int>)
    requires |prompt| > 0 && reserve <= 1 && numDraft >= 1 && !StopsLate(next, prompt, maxNew, reserve, stops)
    requires Baits(next, block, |prompt| + |CutAtStop(GreedyTokens(next, prompt, maxNew), stops)|)
    ensures Run(next, block, numDraft, reserve, prompt, maxNew, stops) != prompt + Plain(next, prompt, maxNew, stops)
  {
    hide GreedyTokens, CutAtStop, Run;
    var all := GreedyTokens(next, prompt, maxNew);
    CutIsLongestFree(all, stops);
    RunOverruns(next, block, numDraft, reserve, prompt, maxNew, stops, |CutAtStop(all, stops)|);
  }

  ghost predicate PlainForAllHeads(next: Next, numDraft: nat, prompt: seq<int>, maxNew: nat, stops: set<int>)
    requires |prompt| > 0
  {
    forall mtp: Next ::
      Run(next, Unrolled(mtp), numDraft, 1, prompt, maxNew, stops) == prompt + Plain(next, prompt, maxNew, stops)
  }

  /**
   * The token-draft loop is plain generation under every draft head exactly when no stop id comes
   * before the last token.
   */
  lemma PlainForAllHeadsExactly(next: Next, numDraft: nat, prompt: seq<int>, maxNew: nat, stops: set<int>)
    requires |prompt| > 0 && numDraft >= 1
    ensures PlainForAllHeads(next, numDraft, prompt, maxNew, stops) <==> StopsLate(next, prompt, maxNew, 1, stops)
  {
    if StopsLate(next, prompt, maxNew, 1, stops) {
      forall mtp: Next
        ensures Run(next, Unrolled(mtp), numDraft, 1, prompt, maxNew, stops) ==
          prompt + Plain(next, prompt, maxNew, stops) {
        StopsLateSuffices(next, Unrolled(mtp), numDraft, 1, prompt, maxNew, stops);
      }
    } else {
      var from := |prompt| + |CutAtStop(GreedyTokens(next, prompt, maxNew), stops)|;
      var mtp := Bait(next, from);
      assert Baits(next, Unrolled(mtp), from);
      StopsLateNeeded(next, Unrolled(mtp), numDraft, 1, prompt, maxNew, stops);
      assert Run(next, Unrolled(mtp), numDraft, 1, prompt, maxNew, stops) !=
        prompt + Plain(next, prompt, maxNew, stops);
    }
  }

  ghost predicate PlainForAllBlocks(next: Next, numDraft: nat, prompt: seq<int>, maxNew: nat, stops: set<int>)
    requires |prompt| > 0
  {
    forall block: Block ::
      Run(next, block, numDraft, 0, prompt, maxNew, stops) == prompt + Plain(next, prompt, maxNew, stops)
  }

  /** The block-draft loop may fill the budget, so here no generated token at all may be a stop id. */
  lemma PlainForAllBlocksExactly(next: Next, numDraft: nat, prompt: seq<int>, maxNew: nat, stops: set<int>)
    requires |prompt| > 0 && numDraft >= 1
    ensures PlainForAllBlocks(next, numDraft, prompt, maxNew, stops) <==> StopsLate(next, prompt, maxNew, 0, stops)
  {
    if StopsLate(next, prompt, maxNew, 0, stops) {
      forall block: Block
        ensures Run(next, block, numDraft, 0, prompt, maxNew, stops) == prompt + Plain(next, prompt, maxNew, stops) {
        StopsLateSuffices(next, block, numDraft, 0, prompt, maxNew, stops);
      }
    } else {
      var from := |prompt| + |CutAtStop(GreedyTokens(next, prompt, maxNew), stops)|;
      StopsLateNeeded(next, BaitBlock(next, from), numDraft, 0, prompt, maxNew, stops);
    }
  }

  /** The wrapper over the incremental loop trims the generated tail at the first stop id. */
  method SpecDecodeTrimmed<S(!new), M(!new), L(!new), H(!new)>(
      m: Main<S, L, H>, d: Drafter<M, L, H>, prompt: seq<int>, maxNew: nat, numDraft: int, stops: set<int>)
    returns (r: Result<seq<int>, string>)
    requires |prompt| > 0
    ensures r.Err? <==> numDraft < 1
    ensures r.Ok? ==> r.value == prompt + CutAtStop(GreedyOf(m, prompt, maxNew), stops)
  {
    if numDraft < 1 { return Err("num_draft must be >= 1"); }
    var emitted, _, _ := GenerateGreedyMtp(m, d, prompt, maxNew, numDraft);
    var ids := prompt + emitted;
    ghost var kept := CutAtStop(emitted, stops);
    CutIsLongestFree(emitted, stops);
    var cut := |ids|;
    for i := |prompt| to |ids|
      invariant cut == |ids| && i - |prompt| <= |kept|
    {
      assert ids[i] == emitted[i - |prompt|];
      if ids[i] in stops {
        cut := i;
        break;
      }
    }
    assert ids[..cut] == prompt + kept;
    return Ok(ids[..cut]);
  }
}
