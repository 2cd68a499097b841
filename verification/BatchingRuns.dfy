/** Every run of the batched engine: any interleaving of its operations gives single-shot output. */
module BatchingRuns {
  import opened Prelude
  import opened Scheduling
  import opened Blocks
  import opened Batching

  // ---------------------------------------------------------------------------
  // Any interleaving
  // ---------------------------------------------------------------------------

  datatype Op<S> = Submit(prompt: seq<int>, maxNew: nat, start: S, hasSink: bool) | Abort(id: int) | Step | Reap

  ghost function After<C, L, S>(h: Host<C, L, S>, e: Eng<C, L, S>, op: Op<S>): Eng<C, L, S>
    requires 1 <= e.sched.cfg.blockSize
  {
    match op
    case Submit(prompt, maxNew, start, hasSink) => Submitted(h, e, prompt, maxNew, start, hasSink)
    case Abort(id) => Cancelled(e, id)
    case Step => Stepped(h, e)
    case Reap => Reaped(e)
  }

  /** An empty prompt with no token budget is the one request whose single decode overshoots its budget. */
  predicate Generates<S>(op: Op<S>) { op.Submit? ==> |op.prompt| + op.maxNew > 0 }

  /** e' is reached from e by some run of submits, aborts, steps and reaps. */
  ghost predicate Reaches<C, L, S>(h: Host<C, L, S>, e: Eng<C, L, S>, ops: seq<Op<S>>, e': Eng<C, L, S>)
    decreases |ops|
  {
    if ops == [] then e' == e
    else 1 <= e.sched.cfg.blockSize && Reaches(h, After(h, e, ops[0]), ops[1..], e')
  }

  lemma AfterValid<C, L, S>(h: Host<C, L, S>, e: Eng<C, L, S>, op: Op<S>)
    requires EngValid(h, e) && Generates(op)
    ensures EngValid(h, After(h, e, op))
  {
    match op
    case Submit(prompt, maxNew, start, hasSink) => SubmittedValid(h, e, prompt, maxNew, start, hasSink);
    case Abort(id) => CancelledValid(h, e, id);
    case Step => SteppedValid(h, e);
    case Reap => ReapedValid(h, e);
  }

  lemma {:induction false} ReachesValid<C, L, S>(h: Host<C, L, S>, e: Eng<C, L, S>, ops: seq<Op<S>>, e': Eng<C, L, S>)
    requires EngValid(h, e) && Reaches(h, e, ops, e') && forall op :: op in ops ==> Generates(op)
    ensures EngValid(h, e')
    decreases |ops|
  {
    if ops != [] {
      AfterValid(h, e, ops[0]);
      ReachesValid(h, After(h, e, ops[0]), ops[1..], e');
    }
  }

  /**
   * Continuous batching changes no output. After any interleaving, a sequence that left the
   * scheduler without being aborted holds exactly what single-shot generation returns for its
   * own request, and its sink saw those tokens followed by one terminal event; a sequence still
   * in flight holds a prefix, and its sink saw exactly that prefix.
   */
  lemma BatchingChangesNoOutput<C, L, S>(h: Host<C, L, S>, cfg: Config, kvCapacity: nat, stateCapacity: nat,
                                         ops: seq<Op<S>>, e: Eng<C, L, S>, id: int)
    requires ConfigOk(cfg) && Reaches(h, InitialEng(cfg, kvCapacity, stateCapacity), ops, e)
    requires forall op :: op in ops ==> Generates(op)
    requires id in e.seqs
    ensures var info := e.seqs[id]; var o := SingleShot(h, info.prompt, info.start, info.maxNew);
      && (InFlight(e.sched, id) ==> info.gen <= o.gen && (info.sink.Some? ==> info.sink.value == TokenEvents(info.gen)))
      && (!InFlight(e.sched, id) && id !in e.aborted ==>
            info.gen == o.gen &&
            (info.sink.Some? && info.maxNew > 0 ==> info.sink.value == TokenEvents(o.gen) + [Finished(o.reason)]))
      && (id in e.aborted ==>
            info.gen <= o.gen && (info.sink.Some? ==> info.sink.value == TokenEvents(info.gen) + [Failed]))
  {
    InitialEngValid(h, cfg, kvCapacity, stateCapacity);
    ReachesValid(h, InitialEng(cfg, kvCapacity, stateCapacity), ops, e);
    var info := e.seqs[id];
    if InFlight(e.sched, id) {
      TrackedLive(h, e, id);
      PrefixOfShot(h, info.prompt, info.start, info.maxNew, |info.gen|);
    } else {
      assert Ended(h, e, id);
    }
  }

  // ---------------------------------------------------------------------------
  // Records keep the request they were made for
  // ---------------------------------------------------------------------------

  /** No operation rewrites the prompt, budget or starting sampler state of an existing sequence. */
  lemma RequestsNeverChange<C, L, S>(h: Host<C, L, S>, e: Eng<C, L, S>, op: Op<S>)
    requires EngValid(h, e)
    ensures SameRequests(e, After(h, e, op))
  {
    assert IdsOk(e);
    hide EngValid, Submitted, Cancelled, Stepped, Reaped, SameRequests, IdsOk;
    match op
    case Submit(prompt, maxNew, start, hasSink) => SubmitKeeps(h, e, prompt, maxNew, start, hasSink);
    case Abort(id) => AbortKeeps(e, id);
    case Step => StepKeeps(h, e);
    case Reap => ReapKeeps(e);
  }
}
