/**
 * The batched engine over the scheduler, against the single-shot generation loop.
 *
 * The model and the sampler are deterministic functions: a cache is what `prefill`
 * and `decode` return, and a sampler state stands for temperature, filters and the
 * sequence's own random generator. `start` in a sequence's record and `aborted` in
 * the engine are history, kept only to state what a finished sequence must hold.
 *
 * Operations are proved here one by one, on values and for the engine class; what
 * holds after every run of them is in `BatchingRuns`.
 */
module Batching {
  import opened Prelude
  import opened Scheduling
  import opened Blocks

  datatype Host<!C, !L, !S> = Host(
    prefill: seq<int> -> (C, L), decode: (C, int) -> (C, L), full: seq<int> -> L, incremental: bool,
    sample: (S, seq<int>, L) -> (int, S), stop: set<int>, maxContext: nat, useState: bool)

  datatype Reason = Stop | Length

  datatype Outcome = Outcome(gen: seq<int>, reason: Reason)

  // ---------------------------------------------------------------------------
  // What single-shot generation means
  // ---------------------------------------------------------------------------

  /** The cache once the prompt and the tokens `gen` are in it. */
  function CacheAt<C, L, S>(h: Host<C, L, S>, prompt: seq<int>, gen: seq<int>): C {
    if gen == [] then h.prefill(prompt).0
    else h.decode(CacheAt(h, prompt, gen[..|gen| - 1]), gen[|gen| - 1]).0
  }

  /** The logits that choose the token after `gen`. */
  function LogitsAt<C, L, S>(h: Host<C, L, S>, prompt: seq<int>, gen: seq<int>): L {
    if !h.incremental then h.full(prompt + gen)
    else if gen == [] then h.prefill(prompt).1
    else h.decode(CacheAt(h, prompt, gen[..|gen| - 1]), gen[|gen| - 1]).1
  }

  function SamplerAt<C, L, S>(h: Host<C, L, S>, prompt: seq<int>, start: S, gen: seq<int>): S {
    if gen == [] then start
    else
      var before := gen[..|gen| - 1];
      h.sample(SamplerAt(h, prompt, start, before), prompt + before, LogitsAt(h, prompt, before)).1
  }

  function NextToken<C, L, S>(h: Host<C, L, S>, prompt: seq<int>, start: S, gen: seq<int>): int {
    h.sample(SamplerAt(h, prompt, start, gen), prompt + gen, LogitsAt(h, prompt, gen)).0
  }

  /** The first k sampled tokens, stop ids ignored. */
  function Tokens<C, L, S>(h: Host<C, L, S>, prompt: seq<int>, start: S, k: nat): (t: seq<int>)
    ensures |t| == k
  {
    if k == 0 then []
    else
      var before := Tokens(h, prompt, start, k - 1);
      before + [NextToken(h, prompt, start, before)]
  }

  predicate StopsAt<C, L, S>(h: Host<C, L, S>, prompt: seq<int>, start: S, k: nat) {
    NextToken(h, prompt, start, Tokens(h, prompt, start, k)) in h.stop
  }

  ghost predicate NoStopBefore<C, L, S>(h: Host<C, L, S>, prompt: seq<int>, start: S, k: nat) {
    forall j: nat :: j < k ==> !StopsAt(h, prompt, start, j)
  }

  /** The tokens before the first stop id, at most maxNew of them. */
  function SingleShotFrom<C, L, S>(h: Host<C, L, S>, prompt: seq<int>, start: S, maxNew: nat, k: nat): Outcome
    decreases maxNew - k
  {
    if k >= maxNew then Outcome(Tokens(h, prompt, start, k), Length)
    else if StopsAt(h, prompt, start, k) then Outcome(Tokens(h, prompt, start, k), Stop)
    else SingleShotFrom(h, prompt, start, maxNew, k + 1)
  }

  function SingleShot<C, L, S>(h: Host<C, L, S>, prompt: seq<int>, start: S, maxNew: nat): Outcome {
    SingleShotFrom(h, prompt, start, maxNew, 0)
  }

  lemma {:induction false} SkipTo<C, L, S>(h: Host<C, L, S>, prompt: seq<int>, start: S, maxNew: nat, i: nat, k: nat)
    requires i <= k <= maxNew && NoStopBefore(h, prompt, start, k)
    ensures SingleShotFrom(h, prompt, start, maxNew, i) == SingleShotFrom(h, prompt, start, maxNew, k)
    decreases k - i
  {
    if i < k {
      assert !StopsAt(h, prompt, start, i);
      SkipTo(h, prompt, start, maxNew, i + 1, k);
    }
  }

  /** Characterisation: what single-shot generation returns, in terms of the first stop. */
  lemma SingleShotIs<C, L, S>(h: Host<C, L, S>, prompt: seq<int>, start: S, maxNew: nat, k: nat)
    requires k <= maxNew && NoStopBefore(h, prompt, start, k)
    ensures k == maxNew ==> SingleShot(h, prompt, start, maxNew) == Outcome(Tokens(h, prompt, start, k), Length)
    ensures k < maxNew && StopsAt(h, prompt, start, k) ==>
      SingleShot(h, prompt, start, maxNew) == Outcome(Tokens(h, prompt, start, k), Stop)
  {
    SkipTo(h, prompt, start, maxNew, 0, k);
  }

  lemma {:induction false} ShotReasonFrom<C, L, S>(h: Host<C, L, S>, prompt: seq<int>, start: S, maxNew: nat, k: nat)
    requires k <= maxNew
    ensures var o := SingleShotFrom(h, prompt, start, maxNew, k);
      && |o.gen| <= maxNew && (o.reason.Length? <==> |o.gen| == maxNew)
      && (o.reason.Stop? ==> o.gen == Tokens(h, prompt, start, |o.gen|) && StopsAt(h, prompt, start, |o.gen|))
    decreases maxNew - k
  {
    hide Tokens, StopsAt;
    if k < maxNew && !StopsAt(h, prompt, start, k) { ShotReasonFrom(h, prompt, start, maxNew, k + 1); }
  }

  /** The reason is the length exactly when the whole budget was generated; otherwise the next token is a stop id. */
  lemma ShotReason<C, L, S>(h: Host<C, L, S>, prompt: seq<int>, start: S, maxNew: nat)
    ensures var o := SingleShot(h, prompt, start, maxNew);
      && |o.gen| <= maxNew && (o.reason.Length? <==> |o.gen| == maxNew)
      && (|o.gen| < maxNew ==> NextToken(h, prompt, start, o.gen) in h.stop)
  {
    hide NextToken;
    ShotReasonFrom(h, prompt, start, maxNew, 0);
  }

  lemma {:induction false} TokensPrefix<C, L, S>(h: Host<C, L, S>, prompt: seq<int>, start: S, i: nat, k: nat)
    requires i <= k
    ensures Tokens(h, prompt, start, i) <= Tokens(h, prompt, start, k)
    decreases k
  {
    if i < k { TokensPrefix(h, prompt, start, i, k - 1); }
  }

  lemma {:induction false} ShotExtends<C, L, S>(h: Host<C, L, S>, prompt: seq<int>, start: S, maxNew: nat, k: nat)
    ensures Tokens(h, prompt, start, k) <= SingleShotFrom(h, prompt, start, maxNew, k).gen
    decreases maxNew - k
  {
    if k < maxNew && !StopsAt(h, prompt, start, k) {
      ShotExtends(h, prompt, start, maxNew, k + 1);
      TokensPrefix(h, prompt, start, k, k + 1);
    }
  }

  /** What has been generated without meeting a stop id is a prefix of the single-shot result. */
  lemma PrefixOfShot<C, L, S>(h: Host<C, L, S>, prompt: seq<int>, start: S, maxNew: nat, k: nat)
    requires k <= maxNew && NoStopBefore(h, prompt, start, k)
    ensures Tokens(h, prompt, start, k) <= SingleShot(h, prompt, start, maxNew).gen
  {
    SkipTo(h, prompt, start, maxNew, 0, k);
    ShotExtends(h, prompt, start, maxNew, k);
  }

  lemma TokensStep<C, L, S>(h: Host<C, L, S>, prompt: seq<int>, start: S, gen: seq<int>)
    requires gen == Tokens(h, prompt, start, |gen|)
    ensures var gen' := gen + [NextToken(h, prompt, start, gen)];
      && gen' == Tokens(h, prompt, start, |gen'|)
      && SamplerAt(h, prompt, start, gen') ==
        h.sample(SamplerAt(h, prompt, start, gen), prompt + gen, LogitsAt(h, prompt, gen)).1
  {
    var gen' := gen + [NextToken(h, prompt, start, gen)];
    assert gen'[..|gen'| - 1] == gen;
  }

  predicate WithinContext<C, L, S>(h: Host<C, L, S>, prompt: seq<int>, maxNew: nat) {
    h.maxContext > 0 ==> |prompt| + maxNew <= h.maxContext
  }

  /**
   * The single-shot loop, for incremental models and for models that recompute every step. A limit of
   * zero is none; only an incremental model must have one.
   */
  method Generate<C(0), L(0), S>(h: Host<C, L, S>, prompt: seq<int>, start: S, maxNew: nat) returns (r: Option<Outcome>)
    ensures r == None <==> h.incremental && |prompt| >= h.maxContext
    ensures r.Some? && WithinContext(h, prompt, maxNew) ==> r.value == SingleShot(h, prompt, start, maxNew)
    ensures r.Some? && |prompt| < h.maxContext < |prompt| + maxNew ==>
      r.value == SingleShot(h, prompt, start, h.maxContext - |prompt|)
    ensures r.Some? && 0 < h.maxContext <= |prompt| ==>
      r.value == SingleShot(h, prompt, start, if maxNew < 1 then 0 else 1)
  {
    if h.incremental && |prompt| >= h.maxContext { return None; }
    var gen: seq<int> := [];
    var s := start;
    var cache, logits;
    if h.incremental { var first := h.prefill(prompt); cache, logits := first.0, first.1; }
    else { cache, logits := *, *; }
    var reason := Length;
    var step := 0;
    while step < maxNew
      invariant step == |gen| <= maxNew
      invariant gen == Tokens(h, prompt, start, |gen|) && NoStopBefore(h, prompt, start, |gen|)
      invariant s == SamplerAt(h, prompt, start, gen)
      invariant h.incremental ==> cache == CacheAt(h, prompt, gen) && logits == LogitsAt(h, prompt, gen)
      invariant h.maxContext > 0 ==> if |prompt| < h.maxContext then |prompt| + |gen| < h.maxContext else gen == []
      invariant reason == Length
    {
      if !h.incremental { logits := h.full(prompt + gen); }
      var pick := h.sample(s, prompt + gen, logits);
      s := pick.1;
      if pick.0 in h.stop {
        reason := Stop;
        break;
      }
      TokensStep(h, prompt, start, gen);
      ghost var was := gen;
      hide SingleShot, SamplerAt, Tokens;
      gen := gen + [pick.0];
      assert gen[..|gen| - 1] == was;
      if h.maxContext > 0 && |prompt| + |gen| >= h.maxContext { break; }
      if h.incremental {
        var next := h.decode(cache, pick.0);
        cache, logits := next.0, next.1;
      }
      step := step + 1;
    }
    ghost var limit := if WithinContext(h, prompt, maxNew) then maxNew
                       else if |prompt| < h.maxContext then h.maxContext - |prompt|
                       else if maxNew < 1 then 0 else 1;
    SingleShotIs(h, prompt, start, limit, |gen|);
    r := Some(Outcome(gen, reason));
  }

  // ---------------------------------------------------------------------------
  // One sequence of the engine
  // ---------------------------------------------------------------------------

  datatype Event = Token(id: int) | Finished(reason: Reason) | Failed

  /** `lastId` is read only once a token was generated. */
  datatype Info<C, L, S> = Info(prompt: seq<int>, maxNew: nat, start: S, gen: seq<int>, sampler: S,
                                cache: Option<C>, pending: Option<L>, lastId: int, sink: Option<seq<Event>>)

  function NewInfo<C, L, S>(prompt: seq<int>, maxNew: nat, start: S, hasSink: bool): Info<C, L, S> {
    Info(prompt, maxNew, start, [], start, None, None, 0, if hasSink then Some([]) else None)
  }

  function TokenEvents(gen: seq<int>): seq<Event> { seq(|gen|, i requires 0 <= i < |gen| => Token(gen[i])) }

  function Emit<C, L, S>(info: Info<C, L, S>, ev: Event): Info<C, L, S> {
    if info.sink.Some? then info.(sink := Some(info.sink.value + [ev])) else info
  }

  /** The whole prompt runs on the first action, whatever that action is. */
  function Prefilled<C, L, S>(h: Host<C, L, S>, info: Info<C, L, S>): Info<C, L, S> {
    if h.incremental && info.cache == None then
      var first := h.prefill(info.prompt);
      info.(cache := Some(first.0), pending := Some(first.1))
    else info
  }

  /** Logits for the next token, and the record after they were taken. */
  function TakeLogits<C, L, S>(h: Host<C, L, S>, info: Info<C, L, S>): (Info<C, L, S>, L) {
    var i := Prefilled(h, info);
    if !h.incremental || i.cache == None then (i, h.full(i.prompt + i.gen))
    else if i.pending.Some? then (i.(pending := None), i.pending.value)
    else
      var next := h.decode(i.cache.value, i.lastId);
      (i.(cache := Some(next.0)), next.1)
  }

  function Sampled<C, L, S>(h: Host<C, L, S>, info: Info<C, L, S>): (Info<C, L, S>, int) {
    var (i, logits) := TakeLogits(h, info);
    var pick := h.sample(i.sampler, i.prompt + i.gen, logits);
    (i.(sampler := pick.1), pick.0)
  }

  /** One decode action on the sequence's record, and whether it hit a stop id. */
  function Decoded<C, L, S>(h: Host<C, L, S>, info: Info<C, L, S>): (Info<C, L, S>, bool) {
    var (i, tok) := Sampled(h, info);
    if tok in h.stop then (Emit(i, Finished(Stop)), true)
    else
      var j := Emit(i.(gen := i.gen + [tok], lastId := tok), Token(tok));
      (if |j.gen| >= j.maxNew then Emit(j, Finished(Length)) else j, false)
  }

  /** The record of an unfinished sequence agrees with single-shot generation so far. */
  ghost predicate Live<C, L, S>(h: Host<C, L, S>, info: Info<C, L, S>) {
    && info.gen == Tokens(h, info.prompt, info.start, |info.gen|)
    && NoStopBefore(h, info.prompt, info.start, |info.gen|)
    && info.sampler == SamplerAt(h, info.prompt, info.start, info.gen)
    && (h.incremental ==> CacheOk(h, info))
    && (!h.incremental ==> info.cache == None && info.pending == None)
    && (info.sink.Some? ==> info.sink.value == TokenEvents(info.gen))
  }

  ghost predicate CacheOk<C, L, S>(h: Host<C, L, S>, info: Info<C, L, S>) {
    if info.cache == None then info.gen == [] && info.pending == None
    else if info.pending.Some? then
      info.gen == [] && info.cache.value == h.prefill(info.prompt).0 && info.pending.value == h.prefill(info.prompt).1
    else
      && info.gen != [] && info.lastId == info.gen[|info.gen| - 1]
      && info.cache.value == CacheAt(h, info.prompt, info.gen[..|info.gen| - 1])
  }

  /** The record of a finished, not aborted sequence: the single-shot result, published once. */
  ghost predicate Complete<C, L, S>(h: Host<C, L, S>, info: Info<C, L, S>) {
    var o := SingleShot(h, info.prompt, info.start, info.maxNew);
    && info.gen == o.gen
    && (info.sink.Some? ==>
        info.sink.value == TokenEvents(o.gen) + (if info.maxNew > 0 then [Finished(o.reason)] else []))
  }

  /** The record of an aborted sequence: some of the single-shot tokens, then one failure. */
  ghost predicate CutShort<C, L, S>(h: Host<C, L, S>, info: Info<C, L, S>) {
    && info.gen <= SingleShot(h, info.prompt, info.start, info.maxNew).gen
    && (info.sink.Some? ==> info.sink.value == TokenEvents(info.gen) + [Failed])
  }

  lemma NewInfoLive<C, L, S>(h: Host<C, L, S>, prompt: seq<int>, maxNew: nat, start: S, hasSink: bool)
    ensures Live(h, NewInfo(prompt, maxNew, start, hasSink))
  {
  }

  lemma PrefilledLive<C, L, S>(h: Host<C, L, S>, info: Info<C, L, S>)
    requires Live(h, info)
    ensures Live(h, Prefilled(h, info))
  {
  }

  /** The engine samples from the same logits, with the same sampler state, as the single-shot loop. */
  lemma SampledIsNext<C, L, S>(h: Host<C, L, S>, info: Info<C, L, S>)
    requires Live(h, info)
    ensures var (i, tok) := Sampled(h, info);
      && tok == NextToken(h, info.prompt, info.start, info.gen)
      && i == info.(sampler := i.sampler, cache := i.cache, pending := i.pending)
      && i.sampler == h.sample(info.sampler, info.prompt + info.gen, LogitsAt(h, info.prompt, info.gen)).1
      && (h.incremental ==> i.cache == Some(CacheAt(h, info.prompt, info.gen)) && i.pending == None)
      && (!h.incremental ==> i.cache == None && i.pending == None)
  {
    var (i, logits) := TakeLogits(h, info);
    assert logits == LogitsAt(h, info.prompt, info.gen);
  }

  /** A decode action either extends the agreement by one token or completes the sequence. */
  lemma DecodedOk<C, L, S>(h: Host<C, L, S>, info: Info<C, L, S>)
    requires Live(h, info) && |info.gen| < info.maxNew
    ensures var (j, eos) := Decoded(h, info);
      && j.prompt == info.prompt && j.maxNew == info.maxNew && j.start == info.start
      && (eos ==> Complete(h, j))
      && (!eos ==> |j.gen| == |info.gen| + 1)
      && (!eos && |j.gen| == j.maxNew ==> Complete(h, j))
      && (!eos && |j.gen| < j.maxNew ==> Live(h, j))
  {
    SampledIsNext(h, info);
    var (i, tok) := Sampled(h, info);
    var p, st, k := info.prompt, info.start, |info.gen|;
    TokensStep(h, p, st, info.gen);
    assert tok in h.stop <==> StopsAt(h, p, st, k);
    hide Sampled, Tokens, SamplerAt, CacheAt, LogitsAt, NextToken, StopsAt;
    if tok in h.stop {
      SingleShotIs(h, p, st, info.maxNew, k);
    } else {
      assert NoStopBefore(h, p, st, k + 1);
      if k + 1 == info.maxNew { SingleShotIs(h, p, st, info.maxNew, k + 1); }
      var gen := info.gen + [tok];
      assert gen[..|gen| - 1] == info.gen;
      assert TokenEvents(gen) == TokenEvents(info.gen) + [Token(tok)];
    }
  }

  // ---------------------------------------------------------------------------
  // The engine
  // ---------------------------------------------------------------------------

  datatype Eng<C, L, S> = Eng(sched: Sched, seqs: map<int, Info<C, L, S>>, order: seq<int>, nextSeq: int,
                              aborted: set<int>)

  function InitialEng<C, L, S>(cfg: Config, kvCapacity: nat, stateCapacity: nat): Eng<C, L, S> {
    Eng(Initial(cfg, kvCapacity, stateCapacity), map[], [], 0, {})
  }

  function Submitted<C, L, S>(h: Host<C, L, S>, e: Eng<C, L, S>, prompt: seq<int>, maxNew: nat, start: S,
                              hasSink: bool): Eng<C, L, S> {
    if h.maxContext > 0 && |prompt| + maxNew > h.maxContext then e.(nextSeq := e.nextSeq + 1)
    else
      e.(nextSeq := e.nextSeq + 1, order := e.order + [e.nextSeq],
         seqs := e.seqs[e.nextSeq := NewInfo(prompt, maxNew, start, hasSink)],
         sched := Added(e.sched, e.nextSeq, |prompt|, maxNew, h.useState))
  }

  predicate InFlight(s: Sched, id: int) { id in IdSet(s.running) || id in IdSet(s.waiting) }

  function Cancelled<C, L, S>(e: Eng<C, L, S>, id: int): Eng<C, L, S> {
    if !InFlight(e.sched, id) then e
    else
      e.(sched := Aborted(e.sched, id), aborted := e.aborted + {id},
         seqs := if id in e.seqs then e.seqs[id := Emit(e.seqs[id], Failed)] else e.seqs)
  }

  /** Run the model for one scheduled action, then advance the scheduler. */
  function Executed<C, L, S>(h: Host<C, L, S>, e: Eng<C, L, S>, a: Action): Eng<C, L, S> {
    if a.seqId !in e.seqs || a.seqId !in IdSet(e.sched.running) then e
    else if a.phase == Decode then
      var (info, eos) := Decoded(h, e.seqs[a.seqId]);
      e.(seqs := e.seqs[a.seqId := info], sched := Advanced(e.sched, a, eos))
    else
      e.(seqs := e.seqs[a.seqId := Prefilled(h, e.seqs[a.seqId])], sched := Advanced(e.sched, a, false))
  }

  function ExecutedAll<C, L, S>(h: Host<C, L, S>, e: Eng<C, L, S>, actions: seq<Action>): Eng<C, L, S>
    decreases |actions|
  {
    if actions == [] then e else ExecutedAll(h, Executed(h, e, actions[0]), actions[1..])
  }

  ghost function Planned<C, L, S>(e: Eng<C, L, S>): Eng<C, L, S>
    requires 1 <= e.sched.cfg.blockSize
  {
    e.(sched := PumpAll(e.sched))
  }

  ghost function Stepped<C, L, S>(h: Host<C, L, S>, e: Eng<C, L, S>): Eng<C, L, S>
    requires 1 <= e.sched.cfg.blockSize
  {
    var t := Planned(e);
    ExecutedAll(h, t, ActionsFor(t.sched.cfg, t.sched.running))
  }

  /** Finished sequences with a sink leave the tables. */
  predicate Reapable<C, L, S>(e: Eng<C, L, S>, id: int) {
    id in e.seqs && e.seqs[id].sink.Some? && id in IdSet(e.sched.done)
  }

  function KeepIds(ids: seq<int>, keep: set<int>): (out: seq<int>)
    ensures forall id :: id in out <==> id in ids && id in keep
  {
    if ids == [] then [] else if ids[0] in keep then [ids[0]] + KeepIds(ids[1..], keep) else KeepIds(ids[1..], keep)
  }

  function DropIds(rs: seq<Request>, gone: set<int>): (out: seq<Request>)
    ensures forall r :: r in out <==> r in rs && r.seqId !in gone
  {
    if rs == [] then []
    else if rs[0].seqId in gone then DropIds(rs[1..], gone)
    else [rs[0]] + DropIds(rs[1..], gone)
  }

  function Reaped<C, L, S>(e: Eng<C, L, S>): Eng<C, L, S> {
    var gone := set id | id in e.seqs && Reapable(e, id);
    if gone == {} then e
    else
      e.(seqs := e.seqs - gone, order := KeepIds(e.order, (e.seqs - gone).Keys),
         sched := e.sched.(done := DropIds(e.sched.done, gone)))
  }

  // ---------------------------------------------------------------------------
  // The invariant of every reachable engine state
  // ---------------------------------------------------------------------------

  /** The scheduler's view of a request and the engine's record of it agree. */
  ghost predicate Tracks<C, L, S>(h: Host<C, L, S>, seqs: map<int, Info<C, L, S>>, r: Request) {
    && r.seqId in seqs
    && r.promptLen == |seqs[r.seqId].prompt| && r.maxNew == seqs[r.seqId].maxNew && r.generated == |seqs[r.seqId].gen|
    && r.promptLen + r.maxNew > 0
    && Live(h, seqs[r.seqId])
  }

  ghost predicate Ended<C, L, S>(h: Host<C, L, S>, e: Eng<C, L, S>, id: int)
    requires id in e.seqs
  {
    if id in e.aborted then CutShort(h, e.seqs[id]) else Complete(h, e.seqs[id])
  }

  ghost predicate AllTracked<C, L, S>(h: Host<C, L, S>, e: Eng<C, L, S>) {
    && (forall r :: r in e.sched.running ==> Tracks(h, e.seqs, r))
    && (forall r :: r in e.sched.waiting ==> Tracks(h, e.seqs, r))
  }

  ghost predicate IdsOk<C, L, S>(e: Eng<C, L, S>) {
    && (forall id :: id in e.seqs ==> id < e.nextSeq)
    && (forall id :: id in e.aborted ==> id < e.nextSeq && !InFlight(e.sched, id))
    && (forall id :: id in IdSet(e.sched.done) ==> id < e.nextSeq && !InFlight(e.sched, id))
  }

  /** Sequences that left the scheduler ended properly. */
  ghost predicate AllEnded<C, L, S>(h: Host<C, L, S>, e: Eng<C, L, S>) {
    forall id :: id in e.seqs && !InFlight(e.sched, id) ==> Ended(h, e, id)
  }

  /** The order lists exactly the records, and a record that left the scheduler is among the done. */
  ghost predicate Listed<C, L, S>(e: Eng<C, L, S>) {
    && (forall id :: id in e.order <==> id in e.seqs)
    && (forall id :: id in e.seqs ==> InFlight(e.sched, id) || id in IdSet(e.sched.done))
  }

  ghost predicate EngValid<C, L, S>(h: Host<C, L, S>, e: Eng<C, L, S>) {
    && Valid(e.sched)
    && AllTracked(h, e)
    && IdsOk(e)
    && AllEnded(h, e)
    && Listed(e)
  }

  lemma {:induction false} ListedKept<C, L, S>(e: Eng<C, L, S>, e': Eng<C, L, S>)
    requires Listed(e) && e'.order == e.order && e'.seqs.Keys == e.seqs.Keys
    requires forall id :: InFlight(e.sched, id) ==> InFlight(e'.sched, id) || id in IdSet(e'.sched.done)
    requires IdSet(e.sched.done) <= IdSet(e'.sched.done)
    ensures Listed(e')
  {
    hide IdSet, InFlight;
    forall id | id in e'.seqs ensures InFlight(e'.sched, id) || id in IdSet(e'.sched.done) {
      assert id in e.seqs;
    }
    forall id ensures id in e'.order <==> id in e'.seqs {
      assert id in e.seqs.Keys <==> id in e'.seqs.Keys;
    }
  }

  lemma InitialEngValid<C, L, S>(h: Host<C, L, S>, cfg: Config, kvCapacity: nat, stateCapacity: nat)
    requires ConfigOk(cfg)
    ensures EngValid(h, InitialEng(cfg, kvCapacity, stateCapacity))
  {
    InitialValid(cfg, kvCapacity, stateCapacity);
  }

  lemma SubmittedValid<C, L, S>(h: Host<C, L, S>, e: Eng<C, L, S>, prompt: seq<int>, maxNew: nat, start: S,
                                hasSink: bool)
    requires EngValid(h, e) && |prompt| + maxNew > 0
    ensures EngValid(h, Submitted(h, e, prompt, maxNew, start, hasSink))
  {
    var e' := Submitted(h, e, prompt, maxNew, start, hasSink);
    hide Live, Complete, CutShort, CoordValid, RunningValid;
    if !(h.maxContext > 0 && |prompt| + maxNew > h.maxContext) {
      if InFlight(e.sched, e.nextSeq) { InFlightTracked(h, e, e.nextSeq); }
      AddedValid(e.sched, e.nextSeq, |prompt|, maxNew, h.useState);
      NewInfoLive(h, prompt, maxNew, start, hasSink);
      assert IdSet(e'.sched.waiting) == IdSet(e.sched.waiting) + {e.nextSeq} by {
        AppendIds(e.sched.waiting, Request(e.nextSeq, |prompt|, maxNew, h.useState, 0, 0, false));
      }
      hide Valid;
      forall r | r in e'.sched.running ensures Tracks(h, e'.seqs, r) {
        assert Tracks(h, e.seqs, r) && InFlight(e.sched, r.seqId);
      }
      forall r | r in e'.sched.waiting ensures Tracks(h, e'.seqs, r) {
        if r in e.sched.waiting { assert Tracks(h, e.seqs, r) && InFlight(e.sched, r.seqId); }
      }
      forall id | id in e'.seqs && !InFlight(e'.sched, id) ensures Ended(h, e', id) {
        assert Ended(h, e, id);
      }
    }
  }

  lemma InFlightTracked<C, L, S>(h: Host<C, L, S>, e: Eng<C, L, S>, id: int)
    requires AllTracked(h, e) && InFlight(e.sched, id)
    ensures id in e.seqs
  {
    hide Live;
    var r :| (r in e.sched.running || r in e.sched.waiting) && r.seqId == id;
    assert Tracks(h, e.seqs, r);
  }

  lemma AppendIds(rs: seq<Request>, r: Request)
    ensures IdSet(rs + [r]) == IdSet(rs) + {r.seqId}
  {
  }

  lemma FinishIds(s: Sched, r: Request)
    ensures IdSet(Finish(s, r).running) == IdSet(s.running) - {r.seqId}
    ensures IdSet(Finish(s, r).done) == IdSet(s.done) + {r.seqId}
  {
    AppendIds(s.done, r.(finished := true));
  }

  /** What one action does to the record of its sequence. */
  function Ran<C, L, S>(h: Host<C, L, S>, info: Info<C, L, S>, a: Action): (Info<C, L, S>, bool) {
    if a.phase == Decode then Decoded(h, info) else (Prefilled(h, info), false)
  }

  lemma RanOk<C, L, S>(h: Host<C, L, S>, seqs: map<int, Info<C, L, S>>, cfg: Config, tables: map<int, Table>,
                       r: Request)
    requires ConfigOk(cfg) && RunningOk(cfg, tables, r) && Tracks(h, seqs, r)
    ensures var a := ActionFor(cfg, r); var (info, eos) := Ran(h, seqs[r.seqId], a); var r' := Moved(r, a);
      && r'.seqId == r.seqId
      && (Finishes(r', eos) ==> Complete(h, info))
      && (!Finishes(r', eos) ==> Tracks(h, seqs[r.seqId := info], r'))
  {
    var info := seqs[r.seqId];
    hide Live, Complete, Decoded, Prefilled;
    if r.position < r.promptLen {
      PrefilledLive(h, info);
      PrefilledSame(h, info);
      if r.maxNew == 0 { NothingToGenerate(h, Prefilled(h, info)); }
    } else {
      DecodedOk(h, info);
    }
  }

  lemma PrefilledSame<C, L, S>(h: Host<C, L, S>, info: Info<C, L, S>)
    ensures var i := Prefilled(h, info);
      i.gen == info.gen && i.prompt == info.prompt && i.maxNew == info.maxNew && i.start == info.start
  {
  }

  lemma NothingToGenerate<C, L, S>(h: Host<C, L, S>, info: Info<C, L, S>)
    requires Live(h, info) && info.maxNew == 0 && info.gen == []
    ensures Complete(h, info)
  {
    assert SingleShot(h, info.prompt, info.start, 0) == Outcome([], Length);
  }

  /** Everything but one sequence is left alone by its action. */
  lemma ExecutedShape<C, L, S>(h: Host<C, L, S>, e: Eng<C, L, S>, r: Request)
    requires Valid(e.sched) && r in e.sched.running && r.seqId in e.seqs
    ensures var a := ActionFor(e.sched.cfg, r); var e' := Executed(h, e, a);
      var (info, eos) := Ran(h, e.seqs[r.seqId], a); var r' := Moved(r, a);
      && e' == e.(seqs := e.seqs[r.seqId := info], sched := e'.sched)
      && e'.sched ==
        (if Finishes(r', eos) then Finish(e.sched, r') else e.sched.(running := Replace(e.sched.running, r')))
  {
    assert r.seqId in IdSet(e.sched.running);
    UniqueById(e.sched.running, Lookup(e.sched.running, r.seqId).value, r);
    hide Decoded, Prefilled, Finish, Replace, Valid, Moved;
  }

  lemma OthersStay(s: Sched, r: Request, x: Request)
    requires x in s.running && x.seqId != r.seqId
    ensures x in Finish(s, r).running && x in Replace(s.running, r)
  {
    var i :| 0 <= i < |s.running| && s.running[i] == x;
    assert Replace(s.running, r)[i] == x;
  }

  lemma OnlyOthers(running: seq<Request>, r: Request, x: Request)
    requires x in Replace(running, r)
    ensures x == r || (x in running && x.seqId != r.seqId)
  {
    var i :| 0 <= i < |running| && Replace(running, r)[i] == x;
  }

  /** The other sequences keep agreeing when one record and its request change. */
  lemma OthersTracked<C, L, S>(h: Host<C, L, S>, e: Eng<C, L, S>, id: int, info: Info<C, L, S>)
    requires AllTracked(h, e)
    ensures var seqs' := e.seqs[id := info];
      && (forall x :: x in e.sched.running && x.seqId != id ==> Tracks(h, seqs', x))
      && (id !in IdSet(e.sched.waiting) ==> forall x :: x in e.sched.waiting ==> Tracks(h, seqs', x))
  {
    hide Live;
    var seqs' := e.seqs[id := info];
    forall x | x in e.sched.running && x.seqId != id ensures Tracks(h, seqs', x) { assert Tracks(h, e.seqs, x); }
    if id !in IdSet(e.sched.waiting) {
      forall x | x in e.sched.waiting ensures Tracks(h, seqs', x) {
        assert x.seqId in IdSet(e.sched.waiting);
        assert Tracks(h, e.seqs, x);
      }
    }
  }

  lemma OthersEnded<C, L, S>(h: Host<C, L, S>, e: Eng<C, L, S>, id: int, e': Eng<C, L, S>)
    requires AllEnded(h, e) && id in e.seqs && id in e'.seqs && e'.seqs == e.seqs[id := e'.seqs[id]]
    requires forall j :: j != id ==>
      (InFlight(e'.sched, j) <==> InFlight(e.sched, j)) && (j in e'.aborted <==> j in e.aborted)
    requires InFlight(e'.sched, id) || Ended(h, e', id)
    ensures AllEnded(h, e')
  {
    hide Complete, CutShort, IdSet;
    forall j | j in e'.seqs && !InFlight(e'.sched, j) ensures Ended(h, e', j) {
      if j != id { assert Ended(h, e, j); }
    }
  }

  lemma WaitingApart(s: Sched, id: int)
    requires Valid(s) && id in IdSet(s.running)
    ensures id !in IdSet(s.waiting)
  {
  }

  /** A finishing action: the record is complete, and the sequence leaves the scheduler. */
  lemma FinishKeeps<C, L, S>(h: Host<C, L, S>, e: Eng<C, L, S>, r: Request, info: Info<C, L, S>)
    requires EngValid(h, e) && r.seqId in IdSet(e.sched.running) && r.seqId in e.seqs && Complete(h, info)
    ensures EngValid(h, e.(seqs := e.seqs[r.seqId := info], sched := Finish(e.sched, r)))
  {
    hide Valid, Tracks, Complete, CutShort, Finish, Listed;
    var e' := e.(seqs := e.seqs[r.seqId := info], sched := Finish(e.sched, r));
    FinishValid(e.sched, r);
    FinishIds(e.sched, r);
    FinishWaiting(e.sched, r);
    OthersTracked(h, e, r.seqId, info);
    WaitingApart(e.sched, r.seqId);
    hide IdSet;
    ListedKept(e, e');
    forall x | x in e'.sched.running ensures Tracks(h, e'.seqs, x) { FinishRunning(e.sched, r, x); }
    assert r.seqId !in e.aborted by { assert InFlight(e.sched, r.seqId); }
    OthersEnded(h, e, r.seqId, e');
  }

  lemma IdIn(rs: seq<Request>, r: Request)
    requires r in rs
    ensures r.seqId in IdSet(rs)
  {
  }

  lemma FinishWaiting(s: Sched, r: Request)
    ensures Finish(s, r).waiting == s.waiting && Finish(s, r).cfg == s.cfg
  {
  }

  lemma FinishRunning(s: Sched, r: Request, x: Request)
    requires x in Finish(s, r).running
    ensures x in s.running && x.seqId != r.seqId
  {
  }

  /** An action that does not finish its sequence: the record still tracks the request. */
  lemma ReplaceKeeps<C, L, S>(h: Host<C, L, S>, e: Eng<C, L, S>, r: Request, info: Info<C, L, S>)
    requires EngValid(h, e) && r.seqId in IdSet(e.sched.running) && r.seqId in e.seqs &&
      Tracks(h, e.seqs[r.seqId := info], r)
    requires Valid(e.sched.(running := Replace(e.sched.running, r))) &&
      IdSet(Replace(e.sched.running, r)) == IdSet(e.sched.running)
    ensures EngValid(h, e.(seqs := e.seqs[r.seqId := info], sched := e.sched.(running := Replace(e.sched.running, r))))
  {
    hide Valid, Tracks, Complete, CutShort, Replace, Listed;
    var e' := e.(seqs := e.seqs[r.seqId := info], sched := e.sched.(running := Replace(e.sched.running, r)));
    OthersTracked(h, e, r.seqId, info);
    WaitingApart(e.sched, r.seqId);
    hide IdSet;
    ListedKept(e, e');
    forall x | x in e'.sched.running ensures Tracks(h, e'.seqs, x) { OnlyOthers(e.sched.running, r, x); }
    OthersEnded(h, e, r.seqId, e');
  }

  lemma ExecutedValid<C, L, S>(h: Host<C, L, S>, e: Eng<C, L, S>, r: Request)
    requires EngValid(h, e) && r in e.sched.running
    ensures EngValid(h, Executed(h, e, ActionFor(e.sched.cfg, r)))
  {
    var a := ActionFor(e.sched.cfg, r);
    assert Tracks(h, e.seqs, r);
    ExecutedShape(h, e, r);
    RanOk(h, e.seqs, e.sched.cfg, e.sched.coord.tables, r);
    var (info, eos) := Ran(h, e.seqs[r.seqId], a);
    var r' := Moved(r, a);
    IdIn(e.sched.running, r);
    if Finishes(r', eos) {
      hide Valid, Complete, Tracks, Finish, Executed, Ran;
      FinishKeeps(h, e, r', info);
    } else {
      MovedOk(e.sched.cfg, e.sched.coord.tables, r);
      ReplaceRunning(e.sched.cfg, e.sched.coord.tables, e.sched.running, r');
      assert Valid(e.sched.(running := Replace(e.sched.running, r')));
      hide Valid, Complete, Tracks, Finish, Executed, Ran;
      ReplaceKeeps(h, e, r', info);
    }
  }

  lemma AbortedShape(s: Sched, id: int)
    requires Valid(s)
    ensures var t := Aborted(s, id);
      && IdSet(t.running) == IdSet(s.running) - {id} && IdSet(t.waiting) == IdSet(s.waiting) - {id}
      && (forall x :: x in t.running ==> x in s.running && x.seqId != id)
      && (forall x :: x in t.waiting ==> x in s.waiting && x.seqId != id)
      && IdSet(t.done) == (if InFlight(s, id) then IdSet(s.done) + {id} else IdSet(s.done))
  {
    AbortedValid(s, id);
    match Lookup(s.running, id)
    case Some(r) => FinishIds(s, r);
    case None =>
      match Lookup(s.waiting, id)
      case Some(r) => AppendIds(s.done, r.(finished := true));
      case None =>
  }

  lemma CutShortOk<C, L, S>(h: Host<C, L, S>, info: Info<C, L, S>)
    requires Live(h, info) && |info.gen| <= info.maxNew
    ensures CutShort(h, Emit(info, Failed))
  {
    PrefixOfShot(h, info.prompt, info.start, info.maxNew, |info.gen|);
  }

  lemma TrackedLive<C, L, S>(h: Host<C, L, S>, e: Eng<C, L, S>, id: int)
    requires Valid(e.sched) && AllTracked(h, e) && InFlight(e.sched, id)
    ensures id in e.seqs && Live(h, e.seqs[id]) && |e.seqs[id].gen| <= e.seqs[id].maxNew
  {
    hide Live;
    var r :| (r in e.sched.running || r in e.sched.waiting) && r.seqId == id;
    assert Tracks(h, e.seqs, r);
  }

  lemma AbortedInFlight(s: Sched, id: int)
    requires Valid(s) && InFlight(s, id)
    ensures forall j :: InFlight(Aborted(s, id), j) <==> InFlight(s, j) && j != id
    ensures IdSet(Aborted(s, id).done) == IdSet(s.done) + {id}
  {
    AbortedShape(s, id);
    hide Valid, Aborted, IdSet;
  }

  lemma CancelledIds<C, L, S>(h: Host<C, L, S>, e: Eng<C, L, S>, id: int)
    requires Valid(e.sched) && AllTracked(h, e) && IdsOk(e) && InFlight(e.sched, id)
    ensures IdsOk(Cancelled(e, id))
  {
    TrackedLive(h, e, id);
    AbortedInFlight(e.sched, id);
    hide Valid, Aborted, IdSet, Live, Emit, AllTracked, InFlight;
  }

  lemma CancelledTracked<C, L, S>(h: Host<C, L, S>, e: Eng<C, L, S>, id: int, info: Info<C, L, S>, s': Sched)
    requires AllTracked(h, e)
    requires forall x :: x in s'.running ==> x in e.sched.running && x.seqId != id
    requires forall x :: x in s'.waiting ==> x in e.sched.waiting && x.seqId != id
    ensures AllTracked(h, e.(sched := s', seqs := e.seqs[id := info], aborted := e.aborted + {id}))
  {
    hide Live;
    forall x | x in s'.running || x in s'.waiting ensures Tracks(h, e.seqs[id := info], x) {
      assert Tracks(h, e.seqs, x);
    }
  }

  /** Aborting publishes one failure after a prefix of the single-shot tokens, and disturbs no one else. */
  lemma CancelledValid<C, L, S>(h: Host<C, L, S>, e: Eng<C, L, S>, id: int)
    requires EngValid(h, e)
    ensures EngValid(h, Cancelled(e, id))
  {
    hide Valid, AllTracked, Complete, CutShort, Aborted, IdSet, Live, IdsOk, InFlight, Emit, Listed;
    if InFlight(e.sched, id) {
      TrackedLive(h, e, id);
      CutShortOk(h, e.seqs[id]);
      AbortedValid(e.sched, id);
      AbortedShape(e.sched, id);
      CancelledIds(h, e, id);
      AbortedInFlight(e.sched, id);
      ListedKept(e, Cancelled(e, id));
      CancelledTracked(h, e, id, Emit(e.seqs[id], Failed), Aborted(e.sched, id));
      OthersEnded(h, e, id, Cancelled(e, id));
    }
  }

  // ---------------------------------------------------------------------------
  // A whole step
  // ---------------------------------------------------------------------------

  /** The actions are for distinct running requests, as they now stand. */
  ghost predicate Pending(s: Sched, actions: seq<Action>) {
    && (forall i, j :: 0 <= i < j < |actions| ==> actions[i].seqId != actions[j].seqId)
    && forall a :: a in actions ==> ForRunning(s, a)
  }

  ghost predicate ForRunning(s: Sched, a: Action) {
    exists r :: r in s.running && a == ActionFor(s.cfg, r)
  }

  lemma {:induction false} ActionsPending(cfg: Config, rs: seq<Request>)
    requires DistinctIds(rs) && forall r :: r in rs ==> !r.finished
    ensures |ActionsFor(cfg, rs)| == |rs|
    ensures forall i :: 0 <= i < |rs| ==> ActionsFor(cfg, rs)[i] == ActionFor(cfg, rs[i])
  {
    if rs != [] { ActionsPending(cfg, rs[1..]); }
  }

  lemma ScheduledPending(s: Sched)
    requires Valid(s)
    ensures Pending(s, ActionsFor(s.cfg, s.running)) && |ActionsFor(s.cfg, s.running)| == |s.running|
  {
    ActionsPending(s.cfg, s.running);
    var actions := ActionsFor(s.cfg, s.running);
    hide ActionsFor, ActionFor;
    forall a | a in actions ensures ForRunning(s, a) {
      var i :| 0 <= i < |actions| && actions[i] == a;
      assert s.running[i] in s.running;
    }
    forall i, j | 0 <= i < j < |actions| ensures actions[i].seqId != actions[j].seqId {
      ActionId(s.cfg, s.running[i]);
      ActionId(s.cfg, s.running[j]);
    }
  }

  lemma ActionId(cfg: Config, r: Request)
    ensures ActionFor(cfg, r).seqId == r.seqId
  {
  }

  /** A request other than the executed one still runs, unchanged. */
  lemma StillRunning<C, L, S>(h: Host<C, L, S>, e: Eng<C, L, S>, r: Request, x: Request)
    requires Valid(e.sched) && r in e.sched.running && r.seqId in e.seqs
    requires x in e.sched.running && x.seqId != r.seqId
    ensures var s' := Executed(h, e, ActionFor(e.sched.cfg, r)).sched; x in s'.running && s'.cfg == e.sched.cfg
  {
    ExecutedShape(h, e, r);
    hide Valid, Ran, Executed, Finish, Replace, ActionFor, Moved;
    var r' := Moved(r, ActionFor(e.sched.cfg, r));
    MovedId(r, ActionFor(e.sched.cfg, r));
    FinishWaiting(e.sched, r');
    OthersStay(e.sched, r', x);
  }

  lemma PendingAfter<C, L, S>(h: Host<C, L, S>, e: Eng<C, L, S>, r: Request, rest: seq<Action>)
    requires Valid(e.sched) && r in e.sched.running && r.seqId in e.seqs
    requires Pending(e.sched, [ActionFor(e.sched.cfg, r)] + rest)
    ensures Pending(Executed(h, e, ActionFor(e.sched.cfg, r)).sched, rest)
  {
    var actions := [ActionFor(e.sched.cfg, r)] + rest;
    ActionId(e.sched.cfg, r);
    hide Valid, Executed, ActionFor;
    var s' := Executed(h, e, ActionFor(e.sched.cfg, r)).sched;
    forall b | b in rest ensures ForRunning(s', b) {
      assert b in actions;
      assert ForRunning(e.sched, b);
      var x :| x in e.sched.running && b == ActionFor(e.sched.cfg, x);
      ActionId(e.sched.cfg, x);
      var i :| 0 <= i < |rest| && rest[i] == b;
      assert actions[0].seqId != actions[i + 1].seqId;
      StillRunning(h, e, r, x);
    }
    forall i, j | 0 <= i < j < |rest| ensures rest[i].seqId != rest[j].seqId {
      assert actions[i + 1].seqId != actions[j + 1].seqId;
    }
  }

  lemma MovedId(r: Request, a: Action)
    ensures Moved(r, a).seqId == r.seqId
  {
  }

  lemma RunningKnown<C, L, S>(h: Host<C, L, S>, e: Eng<C, L, S>, r: Request)
    requires EngValid(h, e) && r in e.sched.running
    ensures Valid(e.sched) && r.seqId in e.seqs
  {
    hide Live;
    assert Tracks(h, e.seqs, r);
  }

  lemma {:induction false} ExecutedAllValid<C, L, S>(h: Host<C, L, S>, e: Eng<C, L, S>, actions: seq<Action>)
    requires EngValid(h, e) && Pending(e.sched, actions)
    ensures EngValid(h, ExecutedAll(h, e, actions))
    decreases |actions|
  {
    if actions != [] {
      hide EngValid, Executed;
      assert [actions[0]] + actions[1..] == actions;
      assert ForRunning(e.sched, actions[0]);
      var r :| r in e.sched.running && actions[0] == ActionFor(e.sched.cfg, r);
      ExecutedValid(h, e, r);
      RunningKnown(h, e, r);
      PendingAfter(h, e, r, actions[1..]);
      ExecutedAllValid(h, Executed(h, e, actions[0]), actions[1..]);
    }
  }

  /** A pump moves requests between the queue and the running set; no record changes. */
  lemma PumpedValid<C, L, S>(h: Host<C, L, S>, e: Eng<C, L, S>)
    requires EngValid(h, e)
    ensures EngValid(h, e.(sched := PumpAll(e.sched)))
  {
    PumpAllValid(e.sched);
    PumpedIds(e.sched);
    var e' := e.(sched := PumpAll(e.sched));
    hide Valid, PumpAll, Live, Complete, CutShort, PumpFrom, PumpOk, IdSet;
    forall id | id in e'.seqs && !InFlight(e'.sched, id) ensures Ended(h, e', id) {
      assert Ended(h, e, id);
    }
  }

  lemma PumpedIds(s: Sched)
    requires Valid(s)
    ensures forall id :: InFlight(PumpAll(s), id) <==> InFlight(s, id)
    ensures forall r :: r in PumpAll(s).running || r in PumpAll(s).waiting <==> r in s.running || r in s.waiting
    ensures PumpAll(s).done == s.done
  {
    PumpAllValid(s);
    var p := PumpFrom(s.cfg, s.coord, s.running, s.waiting);
    hide Valid, CoordValid, RunningValid, PumpFrom, Splits, Shrunk, Accepts;
    var taken := p.running[|s.running|..];
    SplitsFacts(s.waiting, p.kept, taken);
    assert p.running == s.running + taken;
  }

  /** One engine step keeps the invariant. */
  lemma SteppedValid<C, L, S>(h: Host<C, L, S>, e: Eng<C, L, S>)
    requires EngValid(h, e)
    ensures EngValid(h, Stepped(h, e))
  {
    PumpedValid(h, e);
    var t := e.(sched := PumpAll(e.sched));
    ScheduledPending(t.sched);
    hide EngValid, PumpAll, ActionsFor, Pending;
    ExecutedAllValid(h, t, ActionsFor(t.sched.cfg, t.sched.running));
  }

  lemma {:induction false} ReapedListed<C, L, S>(e: Eng<C, L, S>)
    requires Listed(e)
    ensures Listed(Reaped(e))
  {
    var gone := set id | id in e.seqs && Reapable(e, id);
    var e' := Reaped(e);
    if gone != {} {
      assert e'.sched.running == e.sched.running && e'.sched.waiting == e.sched.waiting;
      forall id | id in e'.seqs ensures InFlight(e'.sched, id) || id in IdSet(e'.sched.done) {
        if id in IdSet(e.sched.done) {
          var r :| r in e.sched.done && r.seqId == id;
          assert r in e'.sched.done;
        }
      }
    }
  }

  lemma ReapedValid<C, L, S>(h: Host<C, L, S>, e: Eng<C, L, S>)
    requires EngValid(h, e)
    ensures EngValid(h, Reaped(e))
  {
    var gone := set id | id in e.seqs && Reapable(e, id);
    if gone != {} {
      var e' := Reaped(e);
      ReapedListed(e);
      hide Listed;
      hide Live, Complete, CutShort, CoordValid, RunningValid;
      assert IdSet(e'.sched.done) <= IdSet(e.sched.done);
      forall x | x in e'.sched.running || x in e'.sched.waiting ensures Tracks(h, e'.seqs, x) {
        assert Tracks(h, e.seqs, x) && InFlight(e.sched, x.seqId);
        assert x.seqId !in gone;
      }
      forall id | id in e'.seqs && !InFlight(e'.sched, id) ensures Ended(h, e', id) {
        assert Ended(h, e, id);
      }
    }
  }

  // ---------------------------------------------------------------------------
  // Records keep the request they were made for
  // ---------------------------------------------------------------------------

  ghost predicate SameRequests<C, L, S>(e: Eng<C, L, S>, e': Eng<C, L, S>) {
    forall id :: id in e.seqs && id in e'.seqs ==>
      && e'.seqs[id].prompt == e.seqs[id].prompt && e'.seqs[id].maxNew == e.seqs[id].maxNew
      && e'.seqs[id].start == e.seqs[id].start
  }

  lemma DecodedKeeps<C, L, S>(h: Host<C, L, S>, info: Info<C, L, S>)
    ensures var j := Decoded(h, info).0; j.prompt == info.prompt && j.maxNew == info.maxNew && j.start == info.start
  {
  }

  lemma {:induction false} ExecutedAllKeeps<C, L, S>(h: Host<C, L, S>, e: Eng<C, L, S>, actions: seq<Action>)
    ensures var e' := ExecutedAll(h, e, actions);
      && SameRequests(e, e') && e'.seqs.Keys == e.seqs.Keys && e'.order == e.order && e'.nextSeq == e.nextSeq
      && e'.aborted == e.aborted
    decreases |actions|
  {
    if actions != [] {
      var a := actions[0];
      if a.seqId in e.seqs {
        DecodedKeeps(h, e.seqs[a.seqId]);
        PrefilledSame(h, e.seqs[a.seqId]);
      }
      hide Decoded, Prefilled, Advanced;
      var next := Executed(h, e, a);
      assert next.seqs.Keys == e.seqs.Keys && SameRequests(e, next);
      ExecutedAllKeeps(h, next, actions[1..]);
    }
  }

  lemma SubmitKeeps<C, L, S>(h: Host<C, L, S>, e: Eng<C, L, S>, prompt: seq<int>, maxNew: nat, start: S, hasSink: bool)
    requires IdsOk(e)
    ensures SameRequests(e, Submitted(h, e, prompt, maxNew, start, hasSink))
  {
    assert e.nextSeq !in e.seqs;
  }

  lemma StepKeeps<C, L, S>(h: Host<C, L, S>, e: Eng<C, L, S>)
    requires 1 <= e.sched.cfg.blockSize
    ensures var e' := Stepped(h, e);
      && SameRequests(e, e') && e'.seqs.Keys == e.seqs.Keys && e'.order == e.order && e'.nextSeq == e.nextSeq
      && e'.aborted == e.aborted
  {
    hide ActionsFor, PumpAll, ExecutedAll;
    var s := PumpAll(e.sched);
    ExecutedAllKeeps(h, e.(sched := s), ActionsFor(s.cfg, s.running));
  }

  lemma AbortKeeps<C, L, S>(e: Eng<C, L, S>, id: int)
    ensures SameRequests(e, Cancelled(e, id))
  {
    hide Aborted, InFlight;
  }

  lemma ReapKeeps<C, L, S>(e: Eng<C, L, S>)
    ensures SameRequests(e, Reaped(e))
  {
    hide KeepIds, DropIds, Reapable;
  }

  // ---------------------------------------------------------------------------
  // Progress
  // ---------------------------------------------------------------------------

  lemma ExecutedWork<C, L, S>(h: Host<C, L, S>, e: Eng<C, L, S>, r: Request)
    requires EngValid(h, e) && r in e.sched.running
    ensures 1 <= e.sched.cfg.chunkSize
    ensures var e' := Executed(h, e, ActionFor(e.sched.cfg, r));
      e'.sched.cfg == e.sched.cfg && Remaining(e'.sched) < Remaining(e.sched)
  {
    assert Tracks(h, e.seqs, r);
    var (_, eos) := Ran(h, e.seqs[r.seqId], ActionFor(e.sched.cfg, r));
    AdvancedWork(e.sched, r, eos);
    hide Valid, Live, Decoded, Prefilled, Remaining, Finish;
    FinishWaiting(e.sched, Moved(r, ActionFor(e.sched.cfg, r)));
  }

  lemma {:induction false} ExecutedAllWork<C, L, S>(h: Host<C, L, S>, e: Eng<C, L, S>, actions: seq<Action>)
    requires EngValid(h, e) && Pending(e.sched, actions)
    ensures 1 <= e.sched.cfg.chunkSize && ExecutedAll(h, e, actions).sched.cfg == e.sched.cfg
    ensures Remaining(ExecutedAll(h, e, actions).sched) + |actions| <= Remaining(e.sched)
    decreases |actions|
  {
    if actions == [] {
      assert Valid(e.sched);
    } else {
      hide EngValid, Executed, Remaining;
      assert [actions[0]] + actions[1..] == actions;
      assert ForRunning(e.sched, actions[0]);
      var r :| r in e.sched.running && actions[0] == ActionFor(e.sched.cfg, r);
      ExecutedValid(h, e, r);
      ExecutedWork(h, e, r);
      RunningKnown(h, e, r);
      PendingAfter(h, e, r, actions[1..]);
      ExecutedAllWork(h, Executed(h, e, actions[0]), actions[1..]);
    }
  }

  /** Every productive step uses up remaining work, so there are at most `Remaining` of them. */
  lemma SteppedWork<C, L, S>(h: Host<C, L, S>, e: Eng<C, L, S>)
    requires EngValid(h, e)
    ensures 1 <= e.sched.cfg.chunkSize && Stepped(h, e).sched.cfg == e.sched.cfg
    ensures Remaining(Stepped(h, e).sched) + |PumpAll(e.sched).running| <= Remaining(e.sched)
  {
    PumpedValid(h, e);
    PumpKeepsWork(e.sched);
    var t := e.(sched := PumpAll(e.sched));
    assert t.sched.cfg == e.sched.cfg;
    ScheduledPending(t.sched);
    hide EngValid, PumpAll, ActionsFor, Pending, Remaining;
    ExecutedAllWork(h, t, ActionsFor(t.sched.cfg, t.sched.running));
  }

  ghost predicate AllFit(s: Sched)
    requires 1 <= s.cfg.blockSize
  {
    (forall r :: r in s.running ==> FitsAlone(s, r)) && (forall r :: r in s.waiting ==> FitsAlone(s, r))
  }

  /** Work left over means a request in flight, and the other way round. */
  lemma NoWorkNoneInFlight<C, L, S>(h: Host<C, L, S>, e: Eng<C, L, S>)
    requires EngValid(h, e)
    ensures 1 <= e.sched.cfg.chunkSize
    ensures Remaining(e.sched) == 0 ==> e.sched.running == [] && e.sched.waiting == []
  {
    hide Live;
    if e.sched.running != [] {
      var r := e.sched.running[0];
      assert Tracks(h, e.seqs, r) && RunningOk(e.sched.cfg, e.sched.coord.tables, r);
      WorkPositive(e.sched.cfg, r);
    }
    if e.sched.waiting != [] {
      var r := e.sched.waiting[0];
      assert Tracks(h, e.seqs, r);
      WorkPositive(e.sched.cfg, r);
    }
  }

  lemma WorkPositive(cfg: Config, r: Request)
    requires 1 <= cfg.chunkSize && (r.position < r.promptLen || r.generated < r.maxNew)
    ensures Work(cfg, r) >= 1
  {
    if r.position < r.promptLen { ChunkDone(r.promptLen - r.position, cfg.chunkSize); }
  }

  /** The pools never change size. */
  ghost predicate SameSize(s: Sched, t: Sched) {
    t.cfg == s.cfg && t.coord.kv.capacity == s.coord.kv.capacity && t.coord.st.capacity == s.coord.st.capacity
  }

  lemma {:induction false} PumpSize(cfg: Config, coord: Coord, running: seq<Request>, queue: seq<Request>)
    requires 1 <= cfg.blockSize
    ensures var p := PumpFrom(cfg, coord, running, queue);
      p.coord.kv.capacity == coord.kv.capacity && p.coord.st.capacity == coord.st.capacity
    decreases |queue|
  {
    if queue != [] {
      var r := queue[0];
      PumpUnfold(cfg, coord, running, queue);
      hide PumpFrom, Take, Lowest, Worst;
      if Accepts(cfg, coord, running, r) {
        PumpSize(cfg, Register(coord, r.seqId, Worst(cfg, r), r.useState), running + [r], queue[1..]);
        TakeSize(coord.kv, r.seqId, Worst(cfg, r));
        if r.useState { TakeSize(coord.st, r.seqId, 1); }
      } else {
        PumpSize(cfg, coord, running, queue[1..]);
      }
    }
  }

  lemma TakeSize(p: Pool, seqId: int, n: nat)
    requires n <= |p.free|
    ensures Take(p, seqId, n).capacity == p.capacity
  {
  }

  lemma PumpFits(s: Sched)
    requires Valid(s) && AllFit(s)
    ensures SameSize(s, PumpAll(s)) && AllFit(PumpAll(s))
  {
    PumpSize(s.cfg, s.coord, s.running, s.waiting);
    PumpedIds(s);
    var t := PumpAll(s);
    hide Valid, PumpFrom;
    forall r | r in t.running || r in t.waiting ensures FitsAlone(t, r) {
      assert r in s.running || r in s.waiting;
    }
  }

  lemma FinishFits(s: Sched, r: Request)
    requires 1 <= s.cfg.blockSize && AllFit(s)
    ensures SameSize(s, Finish(s, r)) && AllFit(Finish(s, r))
  {
    var t := Finish(s, r);
    forall x | x in t.running || x in t.waiting ensures FitsAlone(t, x) { assert FitsAlone(s, x); }
  }

  lemma ReplaceFits(s: Sched, r: Request, r': Request)
    requires 1 <= s.cfg.blockSize && AllFit(s) && r in s.running
    requires r'.seqId == r.seqId && r'.promptLen == r.promptLen && r'.maxNew == r.maxNew && r'.useState == r.useState
    ensures AllFit(s.(running := Replace(s.running, r')))
  {
    var t := s.(running := Replace(s.running, r'));
    forall x | x in t.running || x in t.waiting ensures FitsAlone(t, x) {
      if x in t.running {
        OnlyOthers(s.running, r', x);
        assert FitsAlone(s, r);
      }
      if x in s.running || x in s.waiting { assert FitsAlone(s, x); }
    }
  }

  lemma ExecutedFits<C, L, S>(h: Host<C, L, S>, e: Eng<C, L, S>, r: Request)
    requires EngValid(h, e) && AllFit(e.sched) && r in e.sched.running
    ensures var s' := Executed(h, e, ActionFor(e.sched.cfg, r)).sched; SameSize(e.sched, s') && AllFit(s')
  {
    RunningKnown(h, e, r);
    ExecutedShape(h, e, r);
    var r' := Moved(r, ActionFor(e.sched.cfg, r));
    FinishFits(e.sched, r');
    ReplaceFits(e.sched, r, r');
  }

  lemma {:induction false} ExecutedAllFits<C, L, S>(h: Host<C, L, S>, e: Eng<C, L, S>, actions: seq<Action>)
    requires EngValid(h, e) && AllFit(e.sched) && Pending(e.sched, actions)
    ensures var s' := ExecutedAll(h, e, actions).sched; SameSize(e.sched, s') && AllFit(s')
    decreases |actions|
  {
    if actions != [] {
      hide EngValid, Executed, AllFit;
      assert [actions[0]] + actions[1..] == actions;
      assert ForRunning(e.sched, actions[0]);
      var r :| r in e.sched.running && actions[0] == ActionFor(e.sched.cfg, r);
      ExecutedValid(h, e, r);
      RunningKnown(h, e, r);
      ExecutedFits(h, e, r);
      PendingAfter(h, e, r, actions[1..]);
      ExecutedAllFits(h, Executed(h, e, actions[0]), actions[1..]);
    }
  }

  /** If every request fits the empty system, a step that schedules nothing leaves nothing in flight. */
  lemma StepNeverStalls<C, L, S>(h: Host<C, L, S>, e: Eng<C, L, S>)
    requires EngValid(h, e) && AllFit(e.sched)
    ensures var e' := Stepped(h, e);
      && SameSize(e.sched, e'.sched) && AllFit(e'.sched)
      && (PumpAll(e.sched).running == [] ==> e'.sched.running == [] && e'.sched.waiting == [])
  {
    PumpedValid(h, e);
    PumpFits(e.sched);
    NoStall(e.sched);
    var t := e.(sched := PumpAll(e.sched));
    ScheduledPending(t.sched);
    hide EngValid, PumpAll, ActionsFor, Pending, AllFit;
    ExecutedAllFits(h, t, ActionsFor(t.sched.cfg, t.sched.running));
  }

  // ---------------------------------------------------------------------------
  // The engine object
  // ---------------------------------------------------------------------------

  datatype Stall = Stalled | Exhausted | TooLong

  class BatchedInferenceEngine<C, L, S> {
    const h: Host<C, L, S>
    const sched: Scheduler
    var seqs: map<int, Info<C, L, S>>
    var order: seq<int>
    var nextSeq: int
    ghost var aborted: set<int>

    ghost function View(): Eng<C, L, S>
      reads this, sched, sched.coord, sched.coord.kv, sched.coord.state
    {
      Eng(sched.View(), seqs, order, nextSeq, aborted)
    }

    constructor (h: Host<C, L, S>, kvCapacity: nat, stateCapacity: nat, blockSize: nat, chunkSize: nat,
                 maxConcurrency: nat)
      requires 1 <= blockSize && 1 <= chunkSize && 1 <= maxConcurrency
      ensures View() == InitialEng(Config(blockSize, chunkSize, maxConcurrency), kvCapacity, stateCapacity)
      ensures this.h == h && EngValid(h, View())
      ensures fresh(sched) && fresh(sched.coord) && fresh(sched.coord.kv) && fresh(sched.coord.state)
    {
      this.h := h;
      sched := new Scheduler(kvCapacity, stateCapacity, blockSize, chunkSize, maxConcurrency);
      seqs, order, nextSeq, aborted := map[], [], 0, {};
      new;
      InitialEngValid(h, sched.cfg, kvCapacity, stateCapacity);
    }

    method Submit(prompt: seq<int>, maxNew: nat, start: S, hasSink: bool) returns (r: Result<int, Stall>)
      requires EngValid(h, View()) && |prompt| + maxNew > 0
      modifies this, sched`waiting
      ensures View() == Submitted(h, old(View()), prompt, maxNew, start, hasSink) && EngValid(h, View())
      ensures r == if h.maxContext > 0 && |prompt| + maxNew > h.maxContext then Err(TooLong) else Ok(old(nextSeq))
    {
      SubmittedValid(h, View(), prompt, maxNew, start, hasSink);
      ghost var before := View();
      if InFlight(before.sched, nextSeq) { InFlightTracked(h, before, nextSeq); }
      hide EngValid, AllTracked, AllEnded, Valid;
      var seqId := nextSeq;
      nextSeq := nextSeq + 1;
      if h.maxContext > 0 && |prompt| + maxNew > h.maxContext { return Err(TooLong); }
      seqs := seqs[seqId := NewInfo(prompt, maxNew, start, hasSink)];
      order := order + [seqId];
      assert Valid(sched.View()) by { EngSched(h, before); }
      var added := sched.Add(seqId, |prompt|, maxNew, h.useState);
      r := Ok(seqId);
    }

    /** Release the scheduler's resources and fail the sink. */
    method Abort(id: int) returns (found: bool)
      requires EngValid(h, View())
      modifies this, sched, sched.coord, sched.coord.kv, sched.coord.state
      ensures View() == Cancelled(old(View()), id) && EngValid(h, View())
      ensures found <==> InFlight(old(View()).sched, id)
    {
      hide EngValid, Aborted, Valid, IdSet, Emit, CoordValid;
      ghost var e := View();
      CancelledValid(h, e, id);
      EngSched(h, e);
      if !InFlight(e.sched, id) { NotInFlight(e.sched, id); }
      found := sched.Abort(id);
      if found {
        aborted := aborted + {id};
        if id in seqs { seqs := seqs[id := Emit(seqs[id], Failed)]; }
      }
    }

    method Reap() returns (reaped: set<int>)
      requires EngValid(h, View())
      modifies this, sched`done
      ensures View() == Reaped(old(View())) && EngValid(h, View())
      ensures reaped == set id | id in old(seqs) && Reapable(old(View()), id)
    {
      ReapedValid(h, View());
      ghost var e := View();
      hide EngValid, KeepIds, DropIds;
      reaped := set id | id in seqs && seqs[id].sink.Some? && id in IdSet(sched.done);
      assert reaped == set id | id in e.seqs && Reapable(e, id);
      if reaped != {} {
        seqs := seqs - reaped;
        order := KeepIds(order, seqs.Keys);
        sched.done := DropIds(sched.done, reaped);
      }
    }

    /** The scheduler's part of a step: admit what fits, and plan one action per running sequence. */
    method Plan() returns (actions: seq<Action>)
      requires EngValid(h, View())
      modifies sched`waiting, sched`running, sched.coord, sched.coord.kv, sched.coord.state
      ensures 1 <= old(View()).sched.cfg.blockSize
      ensures View() == Planned(old(View())) && EngValid(h, View()) && Pending(View().sched, actions)
      ensures actions == ActionsFor(sched.cfg, View().sched.running)
    {
      StepReady(h, View());
      hide EngValid, PumpAll, ActionsFor, Pending, Valid, IdSet, CoordValid;
      actions := sched.Step();
    }

    /** One scheduler step: pump, schedule, run every action, advance. */
    method Step() returns (actions: seq<Action>)
      requires EngValid(h, View())
      modifies this, sched, sched.coord, sched.coord.kv, sched.coord.state
      ensures 1 <= old(View()).sched.cfg.blockSize
      ensures View() == Stepped(h, old(View())) && EngValid(h, View())
      ensures actions == ActionsFor(sched.cfg, PumpAll(old(View()).sched).running)
    {
      ghost var start := View();
      StepReady(h, start);
      hide EngValid, PumpAll, ActionsFor, Pending, Executed, ExecutedAll, Valid, IdSet, CoordValid;
      actions := Plan();
      ghost var pumped := View();
      for i := 0 to |actions|
        invariant EngValid(h, View()) && Pending(View().sched, actions[i..])
        invariant ExecutedAll(h, View(), actions[i..]) == ExecutedAll(h, pumped, actions)
      {
        assert [actions[i]] + actions[i + 1..] == actions[i..];
        ExecuteReady(h, View(), actions[i], actions[i + 1..]);
        Execute(actions[i]);
      }
      assert actions[|actions|..] == [];
      NothingLeft(h, View());
    }

    /** Run the model for one action of the schedule and advance the scheduler. */
    method Execute(a: Action)
      requires CoordValid(sched.coord.View()) && a.seqId in seqs && a.seqId in IdSet(sched.running)
      modifies this, sched, sched.coord, sched.coord.kv, sched.coord.state
      ensures View() == Executed(h, old(View()), a)
    {
      hide Advanced, CoordValid, Decoded, Prefilled;
      var info := seqs[a.seqId];
      if a.phase == Decode {
        var ran := Decoded(h, info);
        seqs := seqs[a.seqId := ran.0];
        sched.Advance(a, ran.1);
      } else {
        seqs := seqs[a.seqId := Prefilled(h, info)];
        sched.Advance(a, false);
      }
    }

    /** The texts of all records, in the order of submission. */
    method ResultsInOrder(decode: seq<int> -> string) returns (texts: seq<string>)
      requires forall i :: 0 <= i < |order| ==> order[i] in seqs
      ensures |texts| == |order| && forall i :: 0 <= i < |order| ==> texts[i] == decode(seqs[order[i]].gen)
    {
      texts := [];
      for i := 0 to |order|
        invariant |texts| == i && forall j :: 0 <= j < i ==> texts[j] == decode(seqs[order[j]].gen)
      {
        texts := texts + [decode(seqs[order[i]].gen)];
      }
    }

    /**
     * Step until nothing is scheduled, then return every text. No record's request changes, and
     * every record that was not aborted holds its single-shot output. When every request fits the
     * empty system, the run never stalls and needs at most `Remaining` productive steps: the
     * prompts' chunks plus the budgets.
     */
    method RunAll(maxSteps: nat, decode: seq<int> -> string) returns (r: Result<seq<string>, Stall>)
      requires EngValid(h, View())
      modifies this, sched, sched.coord, sched.coord.kv, sched.coord.state
      ensures EngValid(h, View()) && SameRecords(old(View()), View())
      ensures r.Ok? ==>
        (forall id :: !InFlight(View().sched, id)) && AllShot(h, View()) && ResultsAre(r.value, View(), decode)
      ensures ConfigOk(old(View()).sched.cfg) && r != Err(TooLong)
      ensures AllFit(old(View()).sched) ==> r != Err(Stalled)
      ensures AllFit(old(View()).sched) && Remaining(old(View()).sched) <= maxSteps ==> r.Ok?
    {
      ghost var start := View();
      EngConfig(h, start);
      hide EngValid, PumpAll, Stepped, AllFit, Remaining, Valid, SameRecords, AllShot, InFlight, ActionsFor;
      SameRecordsRefl(start);
      var i := 0;
      while i < maxSteps
        invariant EngValid(h, View()) && i <= maxSteps && ConfigOk(View().sched.cfg) && SameRecords(start, View())
        invariant AllFit(start.sched) ==> AllFit(View().sched)
        invariant Remaining(View().sched) + i <= Remaining(start.sched)
      {
        RunStep(h, start, View());
        var actions := Step();
        if actions == [] {
          if sched.waiting != [] || sched.running != [] { return Err(Stalled); }
          AllDone(h, View());
          var texts := ResultsInOrder(decode);
          return Ok(texts);
        }
        i := i + 1;
      }
      if sched.waiting != [] || sched.running != [] {
        NoWorkNoneInFlight(h, View());
        return Err(Exhausted);
      }
      AllDone(h, View());
      var texts := ResultsInOrder(decode);
      r := Ok(texts);
    }
  }

  // ---------------------------------------------------------------------------
  // A whole batch
  // ---------------------------------------------------------------------------

  ghost predicate SameRecords<C, L, S>(e: Eng<C, L, S>, e': Eng<C, L, S>) {
    && SameRequests(e, e') && e'.seqs.Keys == e.seqs.Keys && e'.order == e.order && e'.nextSeq == e.nextSeq
    && e'.aborted == e.aborted
  }

  /** Every record that was not aborted holds its single-shot output. */
  ghost predicate AllShot<C, L, S>(h: Host<C, L, S>, e: Eng<C, L, S>) {
    forall id :: id in e.seqs && id !in e.aborted ==>
      e.seqs[id].gen == SingleShot(h, e.seqs[id].prompt, e.seqs[id].start, e.seqs[id].maxNew).gen
  }

  ghost predicate ResultsAre<C, L, S>(texts: seq<string>, e: Eng<C, L, S>, decode: seq<int> -> string) {
    && |texts| == |e.order|
    && forall i :: 0 <= i < |e.order| ==> e.order[i] in e.seqs && texts[i] == decode(e.seqs[e.order[i]].gen)
  }

  lemma SameRecordsRefl<C, L, S>(e: Eng<C, L, S>)
    ensures SameRecords(e, e)
  {
  }

  lemma SameRequestsTrans<C, L, S>(a: Eng<C, L, S>, b: Eng<C, L, S>, c: Eng<C, L, S>)
    requires SameRequests(a, b) && SameRequests(b, c) && b.seqs.Keys == a.seqs.Keys
    ensures SameRequests(a, c)
  {
    forall id | id in a.seqs && id in c.seqs
      ensures c.seqs[id].prompt == a.seqs[id].prompt && c.seqs[id].maxNew == a.seqs[id].maxNew &&
        c.seqs[id].start == a.seqs[id].start
    {
      assert id in b.seqs.Keys;
    }
  }

  lemma EngConfig<C, L, S>(h: Host<C, L, S>, e: Eng<C, L, S>)
    requires EngValid(h, e)
    ensures ConfigOk(e.sched.cfg)
  {
  }

  /** What one step of a whole run keeps and uses up. */
  lemma RunStep<C, L, S>(h: Host<C, L, S>, start: Eng<C, L, S>, e: Eng<C, L, S>)
    requires EngValid(h, e) && SameRecords(start, e) && ConfigOk(e.sched.cfg)
    ensures var e' := Stepped(h, e); var planned := ActionsFor(e.sched.cfg, PumpAll(e.sched).running);
      && SameRecords(start, e') && e'.sched.cfg == e.sched.cfg
      && (AllFit(e.sched) ==> AllFit(e'.sched))
      && Remaining(e'.sched) + |planned| <= Remaining(e.sched)
      && (AllFit(e.sched) && planned == [] ==> e'.sched.running == [] && e'.sched.waiting == [])
  {
    EngSched(h, e);
    SteppedWork(h, e);
    StepKeeps(h, e);
    SameRequestsTrans(start, e, Stepped(h, e));
    PumpedValid(h, e);
    EngSched(h, Planned(e));
    ScheduledPending(PumpAll(e.sched));
    hide EngValid, PumpAll, Stepped, AllFit, Remaining, Valid, SameRequests, ActionsFor, Pending;
    if AllFit(e.sched) { StepNeverStalls(h, e); }
  }

  lemma ListedIn<C, L, S>(h: Host<C, L, S>, e: Eng<C, L, S>)
    requires EngValid(h, e)
    ensures forall i :: 0 <= i < |e.order| ==> e.order[i] in e.seqs
  {
    assert Listed(e);
    hide EngValid;
    forall i | 0 <= i < |e.order| ensures e.order[i] in e.seqs {
      var id := e.order[i];
      assert id in e.order;
    }
  }

  /** With nothing in flight, every record that was not aborted is complete. */
  lemma AllDone<C, L, S>(h: Host<C, L, S>, e: Eng<C, L, S>)
    requires EngValid(h, e) && e.sched.running == [] && e.sched.waiting == []
    ensures AllShot(h, e) && (forall id :: !InFlight(e.sched, id)) && forall i :: 0 <= i < |e.order| ==>
      e.order[i] in e.seqs
  {
    ListedIn(h, e);
    hide Valid, Live, CutShort;
    forall id | id in e.seqs && id !in e.aborted
      ensures e.seqs[id].gen == SingleShot(h, e.seqs[id].prompt, e.seqs[id].start, e.seqs[id].maxNew).gen
    {
      assert Ended(h, e, id);
    }
  }

  datatype Tokenizer = Tokenizer(encode: string -> seq<int>, decode: seq<int> -> string)

  /** The engine that serves a list of prompts. */
  const BatchConfig := Config(16, 32, 8)
  const BatchBlocks := 1000
  const BatchStates := 64
  const BatchSteps := 1_000_000

  /** The steps of a batch, at most: every prompt's chunks and every budget. */
  function BatchWork(tok: Tokenizer, prompts: seq<string>, maxNew: nat): nat {
    if prompts == [] then 0
    else
      var last := |prompts| - 1;
      BatchWork(tok, prompts[..last], maxNew) + BlocksFor(|tok.encode(prompts[last])|, BatchConfig.chunkSize) + maxNew
  }

  ghost predicate BatchFits(tok: Tokenizer, prompts: seq<string>, maxNew: nat) {
    forall i :: 0 <= i < |prompts| ==>
      BlocksFor(|tok.encode(prompts[i])| + maxNew, BatchConfig.blockSize) <= BatchBlocks
  }

  /** The first records of a fresh engine are those of the prompts submitted so far. */
  ghost predicate Enlisted<C, L, S>(e: Eng<C, L, S>, tok: Tokenizer, prompts: seq<string>, starts: seq<S>, maxNew: nat)
    requires |prompts| <= |starts|
  {
    && e.order == Range(0, |prompts|) && e.nextSeq == |prompts| && e.aborted == {}
    && forall i :: 0 <= i < |prompts| ==> Record(e, i, tok.encode(prompts[i]), starts[i], maxNew)
  }

  ghost predicate Record<C, L, S>(e: Eng<C, L, S>, id: int, prompt: seq<int>, start: S, maxNew: nat) {
    id in e.seqs && e.seqs[id].prompt == prompt && e.seqs[id].start == start && e.seqs[id].maxNew == maxNew
  }

  lemma SubmitEnlists<C, L, S>(h: Host<C, L, S>, e: Eng<C, L, S>, tok: Tokenizer, prompts: seq<string>, starts: seq<S>,
                               maxNew: nat)
    requires 0 < |prompts| <= |starts| && Enlisted(e, tok, prompts[..|prompts| - 1], starts, maxNew)
    requires WithinContext(h, tok.encode(prompts[|prompts| - 1]), maxNew)
    ensures Enlisted(Submitted(h, e, tok.encode(prompts[|prompts| - 1]), maxNew, starts[|prompts| - 1], false), tok,
                     prompts, starts, maxNew)
  {
    var k := |prompts| - 1;
    var e' := Submitted(h, e, tok.encode(prompts[k]), maxNew, starts[k], false);
    hide Added;
    assert e'.order == Range(0, k + 1);
    forall i | 0 <= i < |prompts| ensures Record(e', i, tok.encode(prompts[i]), starts[i], maxNew) {
      if i < k { assert prompts[..k][i] == prompts[i] && Record(e, i, tok.encode(prompts[..k][i]), starts[i], maxNew); }
    }
  }

  lemma AddedFits(s: Sched, id: int, promptLen: nat, maxNew: nat, useState: bool)
    requires 1 <= s.cfg.blockSize && AllFit(s)
    requires BlocksFor(promptLen + maxNew, s.cfg.blockSize) <= s.coord.kv.capacity &&
      (useState ==> 1 <= s.coord.st.capacity)
    ensures SameSize(s, Added(s, id, promptLen, maxNew, useState)) && AllFit(Added(s, id, promptLen, maxNew, useState))
  {
    var t := Added(s, id, promptLen, maxNew, useState);
    forall r | r in t.running || r in t.waiting ensures FitsAlone(t, r) {
      if r in s.running || r in s.waiting { assert FitsAlone(s, r); }
    }
  }

  lemma AddedWork(s: Sched, id: int, promptLen: nat, maxNew: nat, useState: bool)
    requires 1 <= s.cfg.chunkSize
    ensures Remaining(Added(s, id, promptLen, maxNew, useState)) ==
      Remaining(s) + BlocksFor(promptLen, s.cfg.chunkSize) + maxNew
  {
    var r := Request(id, promptLen, maxNew, useState, 0, 0, false);
    TotalWorkAppend(s.cfg, s.waiting, [r]);
    assert [r][1..] == [];
    assert TotalWork(s.cfg, [r]) == Work(s.cfg, r) + TotalWork(s.cfg, []);
  }

  /** What the engine owes once the first prompts are submitted. */
  ghost predicate Owes<C, L, S>(e: Eng<C, L, S>, tok: Tokenizer, prompts: seq<string>, maxNew: nat) {
    && e.sched.cfg == BatchConfig && e.sched.coord.kv.capacity == BatchBlocks &&
      e.sched.coord.st.capacity == BatchStates
    && (BatchFits(tok, prompts, maxNew) ==> AllFit(e.sched))
    && Remaining(e.sched) == BatchWork(tok, prompts, maxNew)
  }

  lemma SubmitOwes<C, L, S>(h: Host<C, L, S>, e: Eng<C, L, S>, tok: Tokenizer, prompts: seq<string>, maxNew: nat,
                            start: S)
    requires 0 < |prompts| && Owes(e, tok, prompts[..|prompts| - 1], maxNew)
    requires WithinContext(h, tok.encode(prompts[|prompts| - 1]), maxNew)
    ensures Owes(Submitted(h, e, tok.encode(prompts[|prompts| - 1]), maxNew, start, false), tok, prompts, maxNew)
  {
    var k := |prompts| - 1;
    var p := tok.encode(prompts[k]);
    AddedWork(e.sched, e.nextSeq, |p|, maxNew, h.useState);
    hide Remaining, BlocksFor, AllFit;
    if BatchFits(tok, prompts, maxNew) {
      assert BatchFits(tok, prompts[..k], maxNew);
      AddedFits(e.sched, e.nextSeq, |p|, maxNew, h.useState);
    }
  }

  /**
   * Serve a list of prompts on a fresh engine: text i is that of the single-shot output of prompt
   * i, whatever the other prompts are.
   */
  method GenerateBatch<C, L, S>(h: Host<C, L, S>, tok: Tokenizer, prompts: seq<string>, starts: seq<S>, maxNew: nat)
      returns (r: Result<seq<string>, Stall>)
    requires |starts| == |prompts|
    requires forall i :: 0 <= i < |prompts| ==> |tok.encode(prompts[i])| + maxNew > 0
    ensures r == Err(TooLong) <==> exists i :: 0 <= i < |prompts| && !WithinContext(h, tok.encode(prompts[i]), maxNew)
    ensures r.Ok? ==> |r.value| == |prompts|
    ensures r.Ok? ==> forall i :: 0 <= i < |prompts| ==>
      r.value[i] == tok.decode(SingleShot(h, tok.encode(prompts[i]), starts[i], maxNew).gen)
    ensures BatchFits(tok, prompts, maxNew) ==> r != Err(Stalled)
    ensures r != Err(TooLong) && BatchFits(tok, prompts, maxNew) && BatchWork(tok, prompts, maxNew) <= BatchSteps ==>
      r.Ok?
  {
    hide Loaded, BatchFits, BatchWork, AllFit, Remaining, SingleShot, EngValid, Submitted, BlocksFor,
      SameRecords, AllShot;
    var eng := new BatchedInferenceEngine<C, L, S>(h, BatchBlocks, BatchStates, 16, 32, 8);
    FreshLoaded(h, eng.View(), tok, prompts, starts, maxNew);
    for i := 0 to |prompts|
      invariant Loaded(h, eng.View(), tok, prompts, starts, maxNew, i)
    {
      ghost var before := eng.View();
      LoadedFacts(h, before, tok, prompts, starts, maxNew, i);
      var id := eng.Submit(tok.encode(prompts[i]), maxNew, starts[i], false);
      if id.Err? { return Err(TooLong); }
      SubmitLoads(h, before, tok, prompts, starts, maxNew, i);
    }
    ghost var loaded := eng.View();
    LoadedFacts(h, loaded, tok, prompts, starts, maxNew, |prompts|);
    r := eng.RunAll(BatchSteps, tok.decode);
    if r.Ok? { BatchResults(h, loaded, eng.View(), tok, prompts, starts, maxNew, r.value); }
  }

  /** The first n prompts are submitted. */
  ghost predicate Loaded<C, L, S>(h: Host<C, L, S>, e: Eng<C, L, S>, tok: Tokenizer, prompts: seq<string>,
                                  starts: seq<S>,
                                  maxNew: nat, n: nat)
    requires n <= |prompts| == |starts|
  {
    && EngValid(h, e) && Enlisted(e, tok, prompts[..n], starts, maxNew) && Owes(e, tok, prompts[..n], maxNew)
    && forall k :: 0 <= k < n ==> WithinContext(h, tok.encode(prompts[k]), maxNew)
  }

  lemma FreshLoaded<C, L, S>(h: Host<C, L, S>, e: Eng<C, L, S>, tok: Tokenizer, prompts: seq<string>, starts: seq<S>,
                             maxNew: nat)
    requires |prompts| == |starts| && EngValid(h, e) && e == InitialEng(BatchConfig, BatchBlocks, BatchStates)
    ensures Loaded(h, e, tok, prompts, starts, maxNew, 0)
  {
    FreshOwes(e, tok, prompts, starts, maxNew);
    hide EngValid, Enlisted, Owes;
  }

  lemma SubmitLoads<C, L, S>(h: Host<C, L, S>, e: Eng<C, L, S>, tok: Tokenizer, prompts: seq<string>, starts: seq<S>,
                             maxNew: nat, n: nat)
    requires n < |prompts| == |starts| && Loaded(h, e, tok, prompts, starts, maxNew, n)
    requires |tok.encode(prompts[n])| + maxNew > 0 && WithinContext(h, tok.encode(prompts[n]), maxNew)
    ensures Loaded(h, Submitted(h, e, tok.encode(prompts[n]), maxNew, starts[n], false), tok, prompts, starts, maxNew,
                   n + 1)
  {
    hide EngValid, Enlisted, Owes, Submitted;
    assert prompts[..n + 1][..n] == prompts[..n] && prompts[..n + 1][n] == prompts[n];
    SubmittedValid(h, e, tok.encode(prompts[n]), maxNew, starts[n], false);
    SubmitEnlists(h, e, tok, prompts[..n + 1], starts, maxNew);
    SubmitOwes(h, e, tok, prompts[..n + 1], maxNew, starts[n]);
  }

  lemma LoadedFacts<C, L, S>(h: Host<C, L, S>, e: Eng<C, L, S>, tok: Tokenizer, prompts: seq<string>, starts: seq<S>,
                             maxNew: nat, n: nat)
    requires n <= |prompts| == |starts| && Loaded(h, e, tok, prompts, starts, maxNew, n)
    ensures EngValid(h, e) && forall k :: 0 <= k < n ==> WithinContext(h, tok.encode(prompts[k]), maxNew)
    ensures n == |prompts| ==>
      && ConfigOk(e.sched.cfg) && Remaining(e.sched) == BatchWork(tok, prompts, maxNew)
      && (BatchFits(tok, prompts, maxNew) ==> AllFit(e.sched)) && Enlisted(e, tok, prompts, starts, maxNew)
  {
    hide EngValid, Enlisted, AllFit, Remaining, BatchFits;
    assert prompts[..|prompts|] == prompts;
  }

  lemma FreshOwes<C, L, S>(e: Eng<C, L, S>, tok: Tokenizer, prompts: seq<string>, starts: seq<S>, maxNew: nat)
    requires e == InitialEng(BatchConfig, BatchBlocks, BatchStates)
    ensures Enlisted(e, tok, prompts[..0], starts, maxNew) && Owes(e, tok, prompts[..0], maxNew)
  {
    hide Initial, AllFit, Remaining;
    InitialIdle(BatchConfig, BatchBlocks, BatchStates);
    assert prompts[..0] == [];
    assert e.order == Range(0, 0);
  }

  lemma InitialIdle(cfg: Config, kvCapacity: nat, stateCapacity: nat)
    requires ConfigOk(cfg)
    ensures var s := Initial(cfg, kvCapacity, stateCapacity);
      s.cfg == cfg && s.coord.kv.capacity == kvCapacity && s.coord.st.capacity == stateCapacity && AllFit(s) &&
        Remaining(s) == 0
  {
  }

  lemma BatchResults<C, L, S>(h: Host<C, L, S>, e: Eng<C, L, S>, e': Eng<C, L, S>, tok: Tokenizer, prompts: seq<string>,
                              starts: seq<S>, maxNew: nat, texts: seq<string>)
    requires |starts| == |prompts| && Enlisted(e, tok, prompts, starts, maxNew) && SameRecords(e, e') && AllShot(h, e')
    requires ResultsAre(texts, e', tok.decode)
    ensures |texts| == |prompts|
    ensures forall i :: 0 <= i < |prompts| ==>
      texts[i] == tok.decode(SingleShot(h, tok.encode(prompts[i]), starts[i], maxNew).gen)
  {
    hide SingleShot;
    forall i | 0 <= i < |prompts|
      ensures texts[i] == tok.decode(SingleShot(h, tok.encode(prompts[i]), starts[i], maxNew).gen)
    {
      assert Record(e, i, tok.encode(prompts[i]), starts[i], maxNew);
      assert e'.order[i] == i;
    }
  }

  lemma NotInFlight(s: Sched, id: int)
    requires !InFlight(s, id)
    ensures Aborted(s, id) == s
  {
  }

  lemma NothingLeft<C, L, S>(h: Host<C, L, S>, e: Eng<C, L, S>)
    ensures ExecutedAll(h, e, []) == e
  {
  }

  lemma StepReady<C, L, S>(h: Host<C, L, S>, e: Eng<C, L, S>)
    requires EngValid(h, e)
    ensures ConfigOk(e.sched.cfg) && Valid(e.sched) && EngValid(h, Stepped(h, e))
    ensures var t := e.(sched := PumpAll(e.sched));
      EngValid(h, t) && t.sched.cfg == e.sched.cfg && Pending(t.sched, ActionsFor(t.sched.cfg, t.sched.running))
  {
    SteppedValid(h, e);
    PumpedValid(h, e);
    ScheduledPending(PumpAll(e.sched));
  }

  /** What the loop over a step's actions needs and keeps at each action. */
  lemma ExecuteReady<C, L, S>(h: Host<C, L, S>, e: Eng<C, L, S>, a: Action, rest: seq<Action>)
    requires EngValid(h, e) && Pending(e.sched, [a] + rest)
    ensures CoordValid(e.sched.coord) && a.seqId in e.seqs && a.seqId in IdSet(e.sched.running)
    ensures EngValid(h, Executed(h, e, a)) && Pending(Executed(h, e, a).sched, rest)
    ensures ExecutedAll(h, e, [a] + rest) == ExecutedAll(h, Executed(h, e, a), rest)
  {
    assert ([a] + rest)[0] == a && ([a] + rest)[1..] == rest;
    assert ForRunning(e.sched, a);
    var r :| r in e.sched.running && a == ActionFor(e.sched.cfg, r);
    ExecutedValid(h, e, r);
    RunningKnown(h, e, r);
    PendingAfter(h, e, r, rest);
    ActionId(e.sched.cfg, r);
    IdIn(e.sched.running, r);
    hide EngValid, Pending, Executed, ActionFor;
  }

  lemma EngSched<C, L, S>(h: Host<C, L, S>, e: Eng<C, L, S>)
    requires EngValid(h, e)
    ensures Valid(e.sched)
  {
  }
}
