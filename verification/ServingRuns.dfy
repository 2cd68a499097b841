/** Every run of the serving protocol: what a request receives, and that the server never idles. */
module ServingRuns {
  import opened Prelude
  import opened Blocks
  import opened Scheduling
  import opened Batching
  import opened Serving

  ghost function Run<C, L, S>(h: Host<C, L, S>, s: Server<C, L, S>, ops: seq<Op<S>>): (s': Server<C, L, S>)
    requires Sound(h, s)
    ensures Sound(h, s')
    decreases |ops|
  {
    if ops == [] then s
    else
      var before := Run(h, s, ops[..|ops| - 1]);
      AfterValid(h, before, ops[|ops| - 1]);
      After(h, before, ops[|ops| - 1])
  }

  /** What the protocol promises about one batched request. */
  ghost predicate Promise<C, L, S>(h: Host<C, L, S>, s: Server<C, L, S>, r: Req<S>)
    requires Runnable(r.ask)
  {
    var o := SingleShot(h, r.ask.prompt, r.ask.start, r.ask.maxNew);
    && r.ids <= o.gen
    && (r.seqId.Some? ==>
          var sid := r.seqId.value;
          && (r.end.Some? <==> !InFlight(s.eng.sched, sid))
          && (r.end == Some(Error) <==> sid in s.eng.aborted)
          && (r.end.Some? && sid !in s.eng.aborted ==>
                r.ids == o.gen && r.end == Some(Finish(if |r.ids| == r.ask.maxNew then "length" else "stop")))
          && (r.end == Some(Finish("stop")) ==> NextToken(h, r.ask.prompt, r.ask.start, r.ids) in h.stop))
    && (r.seqId.None? ==> r.ids == [] && (r.end.None? || r.end == Some(Error)))
    && (r.ask.stream ==>
          && |r.q| == |r.ids| + (if r.end.Some? then 1 else 0)
          && (forall i :: 0 <= i < |r.ids| ==> r.q[i] == TokenId(r.ids[i]))
          && (r.end.Some? ==> r.q[|r.ids|] == r.end.value))
  }

  /**
   * After any interleaving of steps of the HTTP threads, the executor and its engine: the counter
   * is the number of admitted requests that have not given their slot back, and stays in bounds.
   * A request holds a prefix of the single-shot output of its own prompt, and a stream was sent
   * exactly those tokens. Its sink is over if and only if the scheduler no longer holds its
   * sequence; it failed if and only if the sequence was aborted; otherwise it holds the whole
   * single-shot output, and its one terminal note is "length" if that is the whole budget, and
   * "stop" if not, when the next token is a stop id.
   */
  lemma {:induction false} ProtocolHolds<C, L, S>(h: Host<C, L, S>, limits: Limits, cfg: Config, kvCapacity: nat,
                                                  stateCapacity: nat,
                                                  ops: seq<Op<S>>)
    requires ConfigOk(cfg)
    ensures Sound(h, Started(limits, InitialEng(cfg, kvCapacity, stateCapacity)))
    ensures var s := Run(h, Started(limits, InitialEng(cfg, kvCapacity, stateCapacity)), ops);
      && s.inflight == |Unreleased(s)| && 0 <= s.inflight <= s.limits.maxQueued
      && (forall g :: g in s.reqs ==> Sent(s.reqs[g]) && Placed(s, g) && (s.reqs[g].end.Some? ==> s.reqs[g].released))
      && (forall g :: g in s.reqs && s.reqs[g].ask.Batched? ==> Runnable(s.reqs[g].ask) && Promise(h, s, s.reqs[g]))
  {
    StartedValid(h, limits, cfg, kvCapacity, stateCapacity);
    var s := Run(h, Started(limits, InitialEng(cfg, kvCapacity, stateCapacity)), ops);
    hide Run, Sent, Placed, Promise, EngineOk, QueuesOk;
    forall g | g in s.reqs ensures Sent(s.reqs[g]) && Placed(s, g) && (s.reqs[g].end.Some? ==> s.reqs[g].released) {
      assert ReqOk(h, s, g);
    }
    forall g | g in s.reqs && s.reqs[g].ask.Batched? ensures Runnable(s.reqs[g].ask) && Promise(h, s, s.reqs[g]) {
      PromiseKept(h, s, g);
    }
  }

  lemma {:induction false} PromiseKept<C, L, S>(h: Host<C, L, S>, s: Server<C, L, S>, g: int)
    requires Sound(h, s) && g in s.reqs && s.reqs[g].ask.Batched?
    ensures Runnable(s.reqs[g].ask) && Promise(h, s, s.reqs[g])
  {
    hide EngineOk, QueuesOk, OwnersOk, InFlight, SingleShot, NextToken;
    assert ReqOk(h, s, g);
    var r := s.reqs[g];
    ShotReason(h, r.ask.prompt, r.ask.start, r.ask.maxNew);
    if r.seqId.Some? && Held(s, r.seqId.value) {
      assert Open(s, r.seqId.value);
      HeldNotAborted(h, s, r.seqId.value);
    }
    if r.ask.stream && r.end.Some? { assert r.q == r.q[..|r.q| - 1] + [r.q[|r.q| - 1]]; }
  }

  lemma HeldNotAborted<C, L, S>(h: Host<C, L, S>, s: Server<C, L, S>, sid: int)
    requires EngineOk(h, s) && Held(s, sid)
    ensures sid !in s.eng.aborted
  {
    assert IdsOk(s.eng);
    hide EngValid, Pending, InFlight;
  }

  // ---------------------------------------------------------------------------
  // Nothing is taken back
  // ---------------------------------------------------------------------------

  /** What was heard and sent stays, and once a request is over nothing about it changes. */
  ghost predicate Grows<S>(r: Req<S>, r': Req<S>) {
    && r'.ask == r.ask && r.ids <= r'.ids && r.q <= r'.q && (r.released ==> r'.released)
    && (r.seqId.Some? ==> r'.seqId == r.seqId)
    && (r.end.Some? ==> r' == r)
  }

  ghost predicate AllGrow<C, L, S>(s: Server<C, L, S>, s': Server<C, L, S>) {
    forall g :: g in s.reqs ==> g in s'.reqs && Grows(s.reqs[g], s'.reqs[g])
  }

  /** An over request has given its slot back. */
  ghost predicate OverReleased<C, L, S>(s: Server<C, L, S>) {
    forall g :: g in s.reqs && s.reqs[g].end.Some? ==> s.reqs[g].released
  }

  lemma {:induction false} ValidReleased<C, L, S>(h: Host<C, L, S>, s: Server<C, L, S>)
    requires ReqsOk(h, s)
    ensures OverReleased(s)
  {
    hide Sent, Placed, Answered, Linked;
    forall g | g in s.reqs && s.reqs[g].end.Some? ensures s.reqs[g].released { assert ReqOk(h, s, g); }
  }

  lemma EndGrows<C, L, S>(s: Server<C, L, S>, g: int, n: Note)
    requires g in s.reqs && OverReleased(s)
    ensures AllGrow(s, End(s, g, n)) && OverReleased(End(s, g, n))
  {
  }

  lemma {:induction false} GrowTwice<C, L, S>(a: Server<C, L, S>, b: Server<C, L, S>, c: Server<C, L, S>)
    requires AllGrow(a, b) && AllGrow(b, c)
    ensures AllGrow(a, c)
  {
    forall g | g in a.reqs ensures g in c.reqs && Grows(a.reqs[g], c.reqs[g]) {
      assert Grows(a.reqs[g], b.reqs[g]) && Grows(b.reqs[g], c.reqs[g]);
    }
  }

  lemma {:induction false} AbortedGrows<C, L, S>(s: Server<C, L, S>, sid: int)
    requires OverReleased(s) && (Held(s, sid) ==> HasSink(s, sid) && Known(s, sid))
    ensures AllGrow(s, SeqAborted(s, sid)) && OverReleased(SeqAborted(s, sid))
  {
    hide InFlight, Cancelled, End, SeqAborted;
    if Held(s, sid) {
      AbortedIs(s, sid);
      EndGrows(s.(eng := Cancelled(s.eng, sid)), s.owner[sid], Error);
    } else {
      AbortedNone(s, sid);
    }
  }

  lemma {:induction false} FailSinksGrow<C, L, S>(s: Server<C, L, S>, sids: seq<int>)
    requires OverReleased(s)
    ensures AllGrow(s, FailSinks(s, sids)) && OverReleased(FailSinks(s, sids))
    decreases |sids|
  {
    hide End, AllGrow, OverReleased;
    if sids == [] {
      SameGrow(s);
    } else {
      var before := FailSinks(s, sids[..|sids| - 1]);
      FailSinksGrow(s, sids[..|sids| - 1]);
      if Known(before, sids[|sids| - 1]) {
        EndGrows(before, before.owner[sids[|sids| - 1]], Error);
        GrowTwice(s, before, FailSinks(s, sids));
      }
    }
  }

  lemma SameGrow<C, L, S>(s: Server<C, L, S>)
    ensures AllGrow(s, s)
  {
  }

  lemma {:induction false} AbortAllGrow<C, L, S>(h: Host<C, L, S>, s: Server<C, L, S>, sids: seq<int>)
    requires Core(h, s) && s.plan == []
    ensures AllGrow(s, AbortAll(s, sids))
    decreases |sids|
  {
    hide CountOk, QueuesOk, EngineOk, OwnersOk, ReqsOk, AllGrow, OverReleased, SeqAborted, InFlight;
    if sids == [] {
      SameGrow(s);
    } else {
      var before, sid := AbortAll(s, sids[..|sids| - 1]), sids[|sids| - 1];
      AbortAllCore(h, s, sids[..|sids| - 1]);
      AbortAllGrow(h, s, sids[..|sids| - 1]);
      AbortGrows(h, before, sid);
      GrowTwice(s, before, AbortAll(s, sids));
    }
  }

  lemma {:induction false} AbortGrows<C, L, S>(h: Host<C, L, S>, s: Server<C, L, S>, sid: int)
    requires Core(h, s)
    ensures AllGrow(s, SeqAborted(s, sid))
  {
    hide CountOk, QueuesOk, EngineOk, OwnersOk, ReqsOk, AllGrow, OverReleased, SeqAborted, InFlight;
    ValidReleased(h, s);
    if Held(s, sid) { HeldKnown(h, s, sid); }
    AbortedGrows(s, sid);
  }

  lemma {:induction false} SubmitGrows<C, L, S>(h: Host<C, L, S>, s: Server<C, L, S>)
    requires Sound(h, s)
    ensures AllGrow(s, SubmitDrained(h, s))
  {
    hide CountOk, QueuesOk, EngineOk, OwnersOk, ReqsOk, AllOpen, End, Submitted;
    if s.submitQ != [] {
      FirstWaits(h, s, false);
      ValidReleased(h, s);
      var a := s.reqs[s.submitQ[0]].ask;
      EndGrows(s.(submitQ := s.submitQ[1..], eng := Submitted(h, s.eng, a.prompt, a.maxNew, a.start, true)),
               s.submitQ[0], Error);
    }
  }

  lemma {:induction false} JobGrows<C, L, S>(h: Host<C, L, S>, s: Server<C, L, S>, texts: seq<string>, outcome: JobEnd)
    requires Sound(h, s)
    ensures AllGrow(s, JobRun(s, texts, outcome))
  {
    hide CountOk, QueuesOk, EngineOk, OwnersOk, ReqsOk, AllOpen;
    if s.exclQ != [] { FirstWaits(h, s, true); }
  }

  lemma {:induction false} ActionGrows<C, L, S>(h: Host<C, L, S>, s: Server<C, L, S>)
    requires Sound(h, s)
    ensures AllGrow(s, ActionRun(h, s))
  {
    hide CountOk, QueuesOk, EngineOk, OwnersOk, ReqsOk, AllOpen, Told, End, Acted, Executed;
    if s.plan != [] {
      var e', sid := Executed(h, s.eng, s.plan[0]), s.plan[0].seqId;
      var ids := ActionEffect(h, s);
      ValidReleased(h, s);
      ActedGrows(h, s, e', sid, ids);
    }
  }

  lemma {:induction false} ActedGrows<C, L, S>(h: Host<C, L, S>, s: Server<C, L, S>, e': Eng<C, L, S>, sid: int,
                                               ids: seq<int>)
    requires s.plan != [] && OverReleased(s) && Acted(h, s, e', sid, ids)
    ensures AllGrow(s, Told(s.(plan := s.plan[1..]), e', sid))
  {
    hide Told, End, SingleShot, InFlight, NewEvents;
    ActionTold(h, s, e', sid, ids);
    var mid, i := Midway(s, e', sid, ids), s.eng.seqs[sid];
    assert AllGrow(s, mid) && OverReleased(mid);
    hide Midway, AllGrow, OverReleased;
    if !InFlight(e'.sched, sid) {
      var n := Finish(ReasonText(SingleShot(h, i.prompt, i.start, i.maxNew).reason));
      EndGrows(mid, s.owner[sid], n);
      GrowTwice(s, mid, End(mid, s.owner[sid], n));
    }
  }

  lemma {:induction false} FailGrows<C, L, S>(h: Host<C, L, S>, s: Server<C, L, S>)
    requires Sound(h, s)
    ensures AllGrow(s, AllFailed(s))
  {
    hide CountOk, QueuesOk, EngineOk, OwnersOk, ReqsOk, AllOpen, AbortAll, FailSinks, AllGrow;
    var start := s.(plan := []);
    PlanDropped(h, s);
    ValidReleased(h, s);
    assert AllGrow(s, start) && OverReleased(start) by { PlanGrows(s); }
    hide OverReleased;
    FailSinksCore(h, start, s.eng.order);
    FailSinksGrow(start, s.eng.order);
    var failed := FailSinks(start, s.eng.order);
    AbortAllGrow(h, failed, failed.eng.order);
    var aborted := AbortAll(failed, failed.eng.order);
    GrowTwice(s, start, failed);
    GrowTwice(s, failed, aborted);
    ReapGrows(aborted);
    GrowTwice(s, aborted, AllFailed(s));
  }

  lemma PlanGrows<C, L, S>(s: Server<C, L, S>)
    requires OverReleased(s)
    ensures AllGrow(s, s.(plan := [])) && OverReleased(s.(plan := []))
  {
  }

  lemma ReapGrows<C, L, S>(s: Server<C, L, S>)
    ensures AllGrow(s, SeqsReaped(s))
  {
    hide Batching.Reaped;
  }

  lemma {:induction false} ArriveGrows<C, L, S>(h: Host<C, L, S>, s: Server<C, L, S>, ask: Ask<S>)
    requires CountOk(s) && 1 <= s.eng.sched.cfg.blockSize
    ensures AllGrow(s, Arrived(s, ask))
  {
    hide Acceptable, NewReq;
    FreshHandle(s);
  }

  /**
   * No step takes anything back: ids and notes are only added, a request keeps what it asked for
   * and its sequence, and once it is over nothing about it changes, so no second terminal note.
   */
  lemma {:induction false} OverIsFinal<C, L, S>(h: Host<C, L, S>, s: Server<C, L, S>, op: Op<S>)
    requires Sound(h, s) && 1 <= s.eng.sched.cfg.blockSize
    ensures AllGrow(s, After(h, s, op))
  {
    hide QueuesOk, EngineOk, OwnersOk, ReqsOk, AllOpen, Arrived, SubmitDrained, JobRun, ActionRun,
      AllFailed, SeqsReaped, SeqAborted, Planned,
      Acceptable, CountOk;
    if !(BetweenSteps(op) && s.plan != []) {
      match op
      case Arrive(ask) => ArriveGrows(h, s, ask);
      case GiveUp(g) =>
      case DrainAbort => DrainGrows(h, s);
      case DrainSubmit => SubmitGrows(h, s);
      case RunJob(texts, outcome) => JobGrows(h, s, texts, outcome);
      case BeginStep =>
      case RunAction => ActionGrows(h, s);
      case StepFails => FailGrows(h, s);
      case Reap => ReapGrows(s);
    }
  }

  lemma {:induction false} DrainGrows<C, L, S>(h: Host<C, L, S>, s: Server<C, L, S>)
    requires Sound(h, s)
    ensures AllGrow(s, AbortDrained(s))
  {
    if s.abortQ != [] {
      AbortQueueIrrelevant(h, s, s.abortQ[1..]);
      hide Core, AllOpen, SeqAborted;
      AbortGrows(h, s.(abortQ := s.abortQ[1..]), s.abortQ[0]);
    }
  }

  // ---------------------------------------------------------------------------
  // The server never idles over work
  // ---------------------------------------------------------------------------

  /** The engine's requests fit the empty system, and so will those that wait to be handed over. */
  ghost predicate Fitting<C, L, S>(h: Host<C, L, S>, s: Server<C, L, S>) {
    EngineFits(h, s.eng) && forall g :: g in s.submitQ ==> WaitingFits(s, g)
  }

  ghost predicate EngineFits<C, L, S>(h: Host<C, L, S>, e: Eng<C, L, S>) {
    1 <= e.sched.cfg.blockSize && AllFit(e.sched) && (h.useState ==> 1 <= e.sched.coord.st.capacity)
  }

  ghost predicate WaitingFits<C, L, S>(s: Server<C, L, S>, g: int) {
    g in s.reqs && Runnable(s.reqs[g].ask) && AskFits(s.eng.sched, s.reqs[g].ask)
  }

  ghost predicate AskFits<S>(s: Sched, ask: Ask<S>)
    requires Runnable(ask)
  {
    1 <= s.cfg.blockSize && BlocksFor(|ask.prompt| + ask.maxNew, s.cfg.blockSize) <= s.coord.kv.capacity
  }

  /** The engine moved, and the queue of waiting requests lost at most its head. */
  ghost predicate Fewer<C, L, S>(s: Server<C, L, S>, s': Server<C, L, S>) {
    && SameSize(s.eng.sched, s'.eng.sched) && AllGrow(s, s')
    && (s'.submitQ == s.submitQ || (s.submitQ != [] && s'.submitQ == s.submitQ[1..]))
  }

  lemma {:induction false} FewerFits<C, L, S>(h: Host<C, L, S>, s: Server<C, L, S>, s': Server<C, L, S>)
    requires Fitting(h, s) && Fewer(s, s') && AllFit(s'.eng.sched)
    ensures Fitting(h, s')
  {
    hide AllFit, BlocksFor;
    forall g | g in s'.submitQ ensures WaitingFits(s', g) {
      assert g in s.submitQ;
      assert WaitingFits(s, g) && Grows(s.reqs[g], s'.reqs[g]);
    }
  }

  lemma {:induction false} SubmittedFits<C, L, S>(h: Host<C, L, S>, e: Eng<C, L, S>, prompt: seq<int>, maxNew: nat,
                                                  start: S)
    requires EngineFits(h, e) && BlocksFor(|prompt| + maxNew, e.sched.cfg.blockSize) <= e.sched.coord.kv.capacity
    ensures var e' := Submitted(h, e, prompt, maxNew, start, true); SameSize(e.sched, e'.sched) && AllFit(e'.sched)
  {
    hide AllFit, BlocksFor, Added;
    AddedFits(e.sched, e.nextSeq, |prompt|, maxNew, h.useState);
  }

  lemma {:induction false} CancelledFits<C, L, S>(h: Host<C, L, S>, e: Eng<C, L, S>, id: int)
    requires EngValid(h, e) && AllFit(e.sched)
    ensures SameSize(e.sched, Cancelled(e, id).sched) && AllFit(Cancelled(e, id).sched)
  {
    hide Scheduling.Valid, EngValid;
    var s, s' := e.sched, Cancelled(e, id).sched;
    EngSched(h, e);
    EngConfig(h, e);
    AbortedShape(s, id);
    if Lookup(s.running, id).Some? { FinishFits(s, Lookup(s.running, id).value); }
    forall x | x in s'.running || x in s'.waiting ensures FitsAlone(s', x) { assert FitsAlone(s, x); }
  }

  lemma {:induction false} AbortFits<C, L, S>(h: Host<C, L, S>, s: Server<C, L, S>, sid: int)
    requires Core(h, s) && AllFit(s.eng.sched)
    ensures var s' := SeqAborted(s, sid); Fewer(s, s') && AllFit(s'.eng.sched)
  {
    hide CountOk, QueuesOk, EngValid, Pending, OwnersOk, ReqsOk, AllGrow, Cancelled, AllFit, SameSize;
    AbortGrows(h, s, sid);
    CancelledFits(h, s.eng, sid);
  }

  lemma {:induction false} AbortAllFits<C, L, S>(h: Host<C, L, S>, s: Server<C, L, S>, sids: seq<int>)
    requires Core(h, s) && s.plan == [] && Fitting(h, s)
    ensures Fitting(h, AbortAll(s, sids))
    decreases |sids|
  {
    hide CountOk, QueuesOk, EngineOk, OwnersOk, ReqsOk, SeqAborted, Fewer, WaitingFits, AllFit;
    if sids != [] {
      var before, sid := AbortAll(s, sids[..|sids| - 1]), sids[|sids| - 1];
      AbortAllCore(h, s, sids[..|sids| - 1]);
      AbortAllFits(h, s, sids[..|sids| - 1]);
      AbortFits(h, before, sid);
      FewerFits(h, before, SeqAborted(before, sid));
    }
  }

  lemma {:induction false} ReapFits<C, L, S>(h: Host<C, L, S>, s: Server<C, L, S>)
    requires Fitting(h, s)
    ensures Fitting(h, SeqsReaped(s))
  {
    ReapGrows(s);
    var t, t' := s.eng.sched, SeqsReaped(s).eng.sched;
    assert t'.running == t.running && t'.waiting == t.waiting && t'.coord == t.coord && t'.cfg == t.cfg;
    forall r | r in t'.running || r in t'.waiting ensures FitsAlone(t', r) { assert FitsAlone(t, r); }
    hide Batching.Reaped, AllGrow, AllFit;
    FewerFits(h, s, SeqsReaped(s));
  }

  lemma {:induction false} FailFits<C, L, S>(h: Host<C, L, S>, s: Server<C, L, S>)
    requires Sound(h, s) && Fitting(h, s)
    ensures Fitting(h, AllFailed(s))
  {
    hide CountOk, QueuesOk, EngineOk, OwnersOk, ReqsOk, AllOpen, AbortAll, FailSinks, AllGrow, AllFit, SeqsReaped;
    var start := s.(plan := []);
    PlanDropped(h, s);
    ValidReleased(h, s);
    PlanGrows(s);
    FewerFits(h, s, start);
    FailSinksCore(h, start, s.eng.order);
    FailSinksGrow(start, s.eng.order);
    var failed := FailSinks(start, s.eng.order);
    FewerFits(h, start, failed);
    AbortAllFits(h, failed, failed.eng.order);
    ReapFits(h, AbortAll(failed, failed.eng.order));
  }

  lemma {:induction false} ArriveFits<C, L, S>(h: Host<C, L, S>, s: Server<C, L, S>, ask: Ask<S>)
    requires CountOk(s) && Fitting(h, s)
    ensures Fitting(h, Arrived(s, ask))
  {
    hide AllFit, BlocksFor;
    FreshHandle(s);
    var s' := Arrived(s, ask);
    forall g | g in s'.submitQ ensures WaitingFits(s', g) {
      if g in s.submitQ { assert WaitingFits(s, g); }
    }
  }

  lemma {:induction false} SubmitFits<C, L, S>(h: Host<C, L, S>, s: Server<C, L, S>)
    requires Sound(h, s) && Fitting(h, s)
    ensures Fitting(h, SubmitDrained(h, s))
  {
    hide CountOk, QueuesOk, EngineOk, OwnersOk, ReqsOk, AllOpen, End, Submitted, AllGrow, AllFit, BlocksFor;
    if s.submitQ != [] {
      FirstWaits(h, s, false);
      var a := s.reqs[s.submitQ[0]].ask;
      assert WaitingFits(s, s.submitQ[0]);
      SubmittedFits(h, s.eng, a.prompt, a.maxNew, a.start);
      SubmitGrows(h, s);
      FewerFits(h, s, SubmitDrained(h, s));
    }
  }

  /** Running the next action keeps every request fitting, and uses up remaining work. */
  lemma {:induction false} ActionProgress<C, L, S>(h: Host<C, L, S>, s: Server<C, L, S>)
    requires s.plan != [] && EngineOk(h, s)
    ensures var e' := Executed(h, s.eng, s.plan[0]);
      && (AllFit(s.eng.sched) ==> SameSize(s.eng.sched, e'.sched) && AllFit(e'.sched))
      && 1 <= s.eng.sched.cfg.chunkSize && e'.sched.cfg == s.eng.sched.cfg &&
        Remaining(e'.sched) < Remaining(s.eng.sched)
  {
    var e, a := s.eng, s.plan[0];
    assert ForRunning(e.sched, a);
    var r :| r in e.sched.running && a == ActionFor(e.sched.cfg, r);
    hide EngValid, Executed, Pending, AllFit, Remaining, ActionFor;
    ExecutedWork(h, e, r);
    if AllFit(e.sched) { ExecutedFits(h, e, r); }
  }

  lemma {:induction false} AfterFits<C, L, S>(h: Host<C, L, S>, s: Server<C, L, S>, op: Op<S>)
    requires Sound(h, s) && Fitting(h, s)
    ensures Fitting(h, After(h, s, op))
  {
    hide QueuesOk, EngValid, Pending, OwnersOk, ReqsOk, AllOpen, SubmitDrained, AllFailed, SeqsReaped, SeqAborted,
      CountOk, AllGrow, AllFit, Executed, PumpAll, End, BlocksFor, Acceptable;
    OverIsFinal(h, s, op);
    if !(BetweenSteps(op) && s.plan != []) {
      match op
      case Arrive(ask) => ArriveFits(h, s, ask);
      case GiveUp(g) => FewerFits(h, s, After(h, s, op));
      case DrainAbort => DrainFits(h, s);
      case DrainSubmit => SubmitFits(h, s);
      case RunJob(texts, outcome) => FewerFits(h, s, After(h, s, op));
      case BeginStep =>
        EngSched(h, s.eng);
        PumpFits(s.eng.sched);
        FewerFits(h, s, After(h, s, op));
      case RunAction =>
        if s.plan != [] {
          ActionProgress(h, s);
          FewerFits(h, s, After(h, s, op));
        }
      case StepFails => FailFits(h, s);
      case Reap => ReapFits(h, s);
    }
  }

  lemma {:induction false} DrainFits<C, L, S>(h: Host<C, L, S>, s: Server<C, L, S>)
    requires Sound(h, s) && s.plan == [] && Fitting(h, s)
    ensures Fitting(h, AbortDrained(s))
  {
    hide AllFit, WaitingFits, Fewer, SeqAborted, Core, AllOpen;
    if s.abortQ != [] {
      var mid := s.(abortQ := s.abortQ[1..]);
      AbortQueueIrrelevant(h, s, s.abortQ[1..]);
      forall g | g in mid.submitQ ensures WaitingFits(mid, g) { assert WaitingFits(s, g); SameWaiting(s, mid, g); }
      AbortFits(h, mid, s.abortQ[0]);
      FewerFits(h, mid, AbortDrained(s));
    }
  }

  lemma SameWaiting<C, L, S>(s: Server<C, L, S>, s': Server<C, L, S>, g: int)
    requires WaitingFits(s, g) && s'.reqs == s.reqs && s'.eng == s.eng
    ensures WaitingFits(s', g)
  {
  }

  lemma {:induction false} RunFits<C, L, S>(h: Host<C, L, S>, s: Server<C, L, S>, ops: seq<Op<S>>)
    requires Sound(h, s) && Fitting(h, s)
    ensures Fitting(h, Run(h, s, ops))
    decreases |ops|
  {
    hide Core, AllOpen, Fitting, After;
    if ops != [] {
      RunFits(h, s, ops[..|ops| - 1]);
      AfterValid(h, Run(h, s, ops[..|ops| - 1]), ops[|ops| - 1]);
      AfterFits(h, Run(h, s, ops[..|ops| - 1]), ops[|ops| - 1]);
    }
  }

  /**
   * Admission lets in only what can run: in every run, a step that begins while the scheduler
   * holds anything plans an action, and every action uses up remaining work.
   */
  lemma {:induction false} NeverIdles<C, L, S>(h: Host<C, L, S>, limits: Limits, cfg: Config, kvCapacity: nat,
                                               stateCapacity: nat,
                                               ops: seq<Op<S>>)
    requires ConfigOk(cfg) && (h.useState ==> 1 <= stateCapacity)
    ensures Sound(h, Started(limits, InitialEng(cfg, kvCapacity, stateCapacity)))
    ensures var s := Run(h, Started(limits, InitialEng(cfg, kvCapacity, stateCapacity)), ops);
      && ConfigOk(s.eng.sched.cfg)
      && (Begun(s).plan == [] ==> forall sid :: !InFlight(s.eng.sched, sid))
      && (s.plan != [] ==> ActionRun(h, s).eng.sched.cfg == s.eng.sched.cfg
                           && Remaining(ActionRun(h, s).eng.sched) < Remaining(s.eng.sched))
  {
    hide Run, QueuesOk, EngValid, Pending, OwnersOk, ReqsOk, AllOpen, CountOk, AllFit, PumpAll,
      InFlight, ActionsFor, Executed, Remaining,
      Initial, WaitingFits;
    StartedValid(h, limits, cfg, kvCapacity, stateCapacity);
    var start := Started(limits, InitialEng(cfg, kvCapacity, stateCapacity));
    var s := Run(h, start, ops);
    InitialIdle(cfg, kvCapacity, stateCapacity);
    RunFits(h, start, ops);
    EngConfig(h, s.eng);
    BeginPlans(h, s.eng);
    if s.plan != [] { ActionProgress(h, s); }
  }

  lemma {:induction false} BeginPlans<C, L, S>(h: Host<C, L, S>, e: Eng<C, L, S>)
    requires EngValid(h, e) && 1 <= e.sched.cfg.blockSize && AllFit(e.sched)
    ensures var t := Planned(e).sched;
      ActionsFor(t.cfg, t.running) == [] ==> forall sid :: !InFlight(e.sched, sid)
  {
    EngSched(h, e);
    PumpedIds(e.sched);
    PumpFits(e.sched);
    NoStall(e.sched);
    PumpedValid(h, e);
    EngSched(h, Planned(e));
    ScheduledPending(PumpAll(e.sched));
    hide EngValid, PumpAll, ActionsFor, Pending, Scheduling.Valid, AllFit;
  }
}
