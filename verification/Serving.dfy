/**
 * The serving protocol between HTTP threads and the executor thread: admission against
 * a limit, hand-over queues, aborts, failure of a whole batch, and the requests' sinks,
 * which hear the engine of `Batching` through its callbacks.
 *
 * Each step is atomic; taking a flag and the lock in `Released` is one step, and so is one
 * action of the engine with its callbacks. HTTP threads may step between any two actions.
 * Steps are proved here one by one, on values and for the class; what holds after every
 * run of them is in `ServingRuns`.
 */
module Serving {
  import opened Prelude
  import opened Blocks
  import opened Scheduling
  import opened Batching

  /** What a reader's queue receives. */
  datatype Note = TokenId(id: int) | TokenText(text: string) | Finish(reason: string) | Error

  predicate Terminal(n: Note) { n.Finish? || n.Error? }

  /** A text request is batched; a vision or tool turn is a job that runs alone. */
  datatype Ask<S> = Batched(prompt: seq<int>, maxNew: int, start: S, stream: bool) | Exclusive(stream: bool)

  /** A request: what it heard, what its reader was sent, and how it ended. */
  datatype Req<S> = Req(ask: Ask<S>, ids: seq<int>, q: seq<Note>, end: Option<Note>, released: bool, seqId: Option<int>)

  datatype Limits = Limits(maxQueued: nat, maxContext: nat)

  /**
   * `owner` is the request behind the sink of each sequence ever submitted, and `plan` the
   * actions of the current step that are still to run.
   */
  datatype Server<C, L, S> = Server(limits: Limits, inflight: int, served: int, reqs: map<int, Req<S>>, nextReq: int,
                                    submitQ: seq<int>, exclQ: seq<int>, abortQ: seq<int>,
                                    eng: Eng<C, L, S>, owner: map<int, int>, plan: seq<Action>)

  function Started<C, L, S>(limits: Limits, eng: Eng<C, L, S>): Server<C, L, S> {
    Server(limits, 0, 0, map[], 0, [], [], [], eng, map[], [])
  }

  // ---------------------------------------------------------------------------
  // Sinks
  // ---------------------------------------------------------------------------

  /** Only requests and the counters change. */
  ghost predicate OnlyReqs<C, L, S>(s: Server<C, L, S>, s': Server<C, L, S>) {
    s' == s.(reqs := s'.reqs, inflight := s'.inflight, served := s'.served) && s'.reqs.Keys == s.reqs.Keys
  }

  /** Give the in-flight slot back, once. */
  function Released<C, L, S>(s: Server<C, L, S>, g: int): (s': Server<C, L, S>)
    requires g in s.reqs
    ensures OnlyReqs(s, s')
  {
    if s.reqs[g].released then s
    else s.(reqs := s.reqs[g := s.reqs[g].(released := true)], inflight := s.inflight - 1, served := s.served + 1)
  }

  function Put<S>(r: Req<S>, n: Note): Req<S> { if r.ask.stream then r.(q := r.q + [n]) else r }

  /** End a request with a terminal note, unless it is over already. */
  function End<C, L, S>(s: Server<C, L, S>, g: int, n: Note): (s': Server<C, L, S>)
    requires g in s.reqs
    ensures OnlyReqs(s, s')
  {
    if s.reqs[g].end.Some? then s
    else Released(s.(reqs := s.reqs[g := Put(s.reqs[g], n).(end := Some(n))]), g)
  }

  function OnToken<S>(r: Req<S>, tok: int): Req<S> { Put(r.(ids := r.ids + [tok]), TokenId(tok)) }

  function ReasonText(reason: Reason): string { if reason.Stop? then "stop" else "length" }

  /** A callback of the engine reaches the request. */
  function Heard<C, L, S>(s: Server<C, L, S>, g: int, ev: Event): (s': Server<C, L, S>)
    requires g in s.reqs
    ensures OnlyReqs(s, s')
  {
    match ev
    case Token(id) => s.(reqs := s.reqs[g := OnToken(s.reqs[g], id)])
    case Finished(reason) => End(s, g, Finish(ReasonText(reason)))
    case Failed => End(s, g, Error)
  }

  function Delivered<C, L, S>(s: Server<C, L, S>, g: int, evs: seq<Event>): (s': Server<C, L, S>)
    requires g in s.reqs
    ensures OnlyReqs(s, s')
  {
    if evs == [] then s else Heard(Delivered(s, g, evs[..|evs| - 1]), g, evs[|evs| - 1])
  }

  predicate Known<C, L, S>(s: Server<C, L, S>, sid: int) { sid in s.owner && s.owner[sid] in s.reqs }

  function Log<C, L, S>(e: Eng<C, L, S>, sid: int): seq<Event> {
    if sid in e.seqs && e.seqs[sid].sink.Some? then e.seqs[sid].sink.value else []
  }

  /** The callbacks that the engine made for a sequence between two states. */
  function NewEvents<C, L, S>(e: Eng<C, L, S>, e': Eng<C, L, S>, sid: int): seq<Event> {
    if |Log(e, sid)| <= |Log(e', sid)| then Log(e', sid)[|Log(e, sid)|..] else []
  }

  /** The engine moves on, and the request that owns the sequence hears what it called back. */
  function Told<C, L, S>(s: Server<C, L, S>, e': Eng<C, L, S>, sid: int): Server<C, L, S> {
    if Known(s, sid) then Delivered(s.(eng := e'), s.owner[sid], NewEvents(s.eng, e', sid)) else s.(eng := e')
  }

  // ---------------------------------------------------------------------------
  // Steps
  // ---------------------------------------------------------------------------

  datatype JobEnd = Returned(reason: string) | Raised

  datatype Op<S> =
    | Arrive(ask: Ask<S>)
    | GiveUp(g: int)
    | DrainAbort
    | DrainSubmit
    | RunJob(texts: seq<string>, outcome: JobEnd)
    | BeginStep
    | RunAction
    | StepFails
    | Reap

  /** A batched request must generate something, stay within the context, and fit the whole block pool. */
  predicate Acceptable<C, L, S>(s: Server<C, L, S>, ask: Ask<S>)
    requires 1 <= s.eng.sched.cfg.blockSize
  {
    ask.Batched? ==>
      && ask.maxNew >= 1
      && (s.limits.maxContext > 0 ==> |ask.prompt| + ask.maxNew <= s.limits.maxContext)
      && BlocksFor(|ask.prompt| + ask.maxNew, s.eng.sched.cfg.blockSize) <= s.eng.sched.coord.kv.capacity
  }

  function NewReq<S>(ask: Ask<S>): Req<S> { Req(ask, [], [], None, false, None) }

  /** A request is refused when it cannot run or the limit is reached; otherwise it takes a slot and joins its queue. */
  function Arrived<C, L, S>(s: Server<C, L, S>, ask: Ask<S>): Server<C, L, S>
    requires 1 <= s.eng.sched.cfg.blockSize
  {
    if !Acceptable(s, ask) || s.inflight >= s.limits.maxQueued then s
    else
      var g := s.nextReq;
      s.(inflight := s.inflight + 1, reqs := s.reqs[g := NewReq(ask)], nextReq := g + 1,
         submitQ := if ask.Batched? then s.submitQ + [g] else s.submitQ,
         exclQ := if ask.Batched? then s.exclQ else s.exclQ + [g])
  }

  /** A reader that stops waiting asks for an abort, if the request was submitted, and gives its slot back. */
  function GivenUp<C, L, S>(s: Server<C, L, S>, g: int): Server<C, L, S> {
    if g !in s.reqs || s.reqs[g].end.Some? then s
    else Released(if s.reqs[g].seqId.Some? then s.(abortQ := s.abortQ + [s.reqs[g].seqId.value]) else s, g)
  }

  /** The engine frees a sequence it still holds, which fails its sink. */
  function SeqAborted<C, L, S>(s: Server<C, L, S>, sid: int): Server<C, L, S> {
    Told(s, Cancelled(s.eng, sid), sid)
  }

  function AbortDrained<C, L, S>(s: Server<C, L, S>): (s': Server<C, L, S>)
    ensures s.abortQ != [] ==> s'.abortQ == s.abortQ[1..]
  {
    if s.abortQ == [] then s else SeqAborted(s.(abortQ := s.abortQ[1..]), s.abortQ[0])
  }

  /** Finished sequences leave the engine. */
  function SeqsReaped<C, L, S>(s: Server<C, L, S>): Server<C, L, S> { s.(eng := Batching.Reaped(s.eng)) }

  predicate Runnable<S>(ask: Ask<S>) { ask.Batched? && ask.maxNew >= 1 }

  /** The engine takes the request under its next sequence id, or refuses it. */
  function SubmitDrained<C, L, S>(h: Host<C, L, S>, s: Server<C, L, S>): (s': Server<C, L, S>)
    ensures s.submitQ != [] ==> s'.submitQ == s.submitQ[1..]
  {
    if s.submitQ == [] then s
    else if s.submitQ[0] !in s.reqs || !Runnable(s.reqs[s.submitQ[0]].ask) then s.(submitQ := s.submitQ[1..])
    else
      var g, r, sid := s.submitQ[0], s.reqs[s.submitQ[0]], s.eng.nextSeq;
      var s' := s.(submitQ := s.submitQ[1..],
                   eng := Submitted(h, s.eng, r.ask.prompt, r.ask.maxNew, r.ask.start, true));
      if !WithinContext(h, r.ask.prompt, r.ask.maxNew) then End(s', g, Error)
      else s'.(reqs := s.reqs[g := r.(seqId := Some(sid))], owner := s.owner[sid := g])
  }

  function Texts(texts: seq<string>): (q: seq<Note>)
    ensures |q| == |texts|
  {
    seq(|texts|, i requires 0 <= i < |texts| => TokenText(texts[i]))
  }

  /** A job runs to its end on the executor thread; a stream sends its texts first. */
  function JobRun<C, L, S>(s: Server<C, L, S>, texts: seq<string>, outcome: JobEnd): (s': Server<C, L, S>)
    ensures s.exclQ != [] ==> s'.exclQ == s.exclQ[1..]
  {
    if s.exclQ == [] then s
    else if s.exclQ[0] !in s.reqs then s.(exclQ := s.exclQ[1..])
    else
      var g, r := s.exclQ[0], s.reqs[s.exclQ[0]];
      var sent := if r.ask.stream then r.(q := r.q + Texts(texts)) else r;
      End(s.(exclQ := s.exclQ[1..], reqs := s.reqs[g := sent]), g,
          if outcome.Returned? then Finish(outcome.reason) else Error)
  }

  /** The scheduler admits what fits and plans one action per running sequence. */
  ghost function Begun<C, L, S>(s: Server<C, L, S>): Server<C, L, S>
    requires 1 <= s.eng.sched.cfg.blockSize
  {
    var e := Planned(s.eng);
    s.(eng := e, plan := ActionsFor(e.sched.cfg, e.sched.running))
  }

  /** The engine runs the next planned action; its callbacks reach the request. */
  function ActionRun<C, L, S>(h: Host<C, L, S>, s: Server<C, L, S>): Server<C, L, S> {
    if s.plan == [] then s
    else Told(s.(plan := s.plan[1..]), Executed(h, s.eng, s.plan[0]), s.plan[0].seqId)
  }

  /** Fail the sinks of these sequences. */
  function FailSinks<C, L, S>(s: Server<C, L, S>, sids: seq<int>): (s': Server<C, L, S>)
    ensures OnlyReqs(s, s')
  {
    if sids == [] then s
    else
      var before := FailSinks(s, sids[..|sids| - 1]);
      var sid := sids[|sids| - 1];
      if Known(before, sid) then End(before, before.owner[sid], Error) else before
  }

  function AbortAll<C, L, S>(s: Server<C, L, S>, sids: seq<int>): Server<C, L, S> {
    if sids == [] then s else SeqAborted(AbortAll(s, sids[..|sids| - 1]), sids[|sids| - 1])
  }

  /** A failed step: the rest of the plan is dropped, every sink fails, then every sequence is aborted. */
  function AllFailed<C, L, S>(s: Server<C, L, S>): Server<C, L, S> {
    var failed := FailSinks(s.(plan := []), s.eng.order);
    SeqsReaped(AbortAll(failed, failed.eng.order))
  }

  /** What the executor thread does only between two engine steps. */
  predicate BetweenSteps<S>(op: Op<S>) { op.DrainAbort? || op.DrainSubmit? || op.RunJob? || op.BeginStep? || op.Reap? }

  ghost function After<C, L, S>(h: Host<C, L, S>, s: Server<C, L, S>, op: Op<S>): Server<C, L, S>
    requires 1 <= s.eng.sched.cfg.blockSize
  {
    if BetweenSteps(op) && s.plan != [] then s
    else
      match op
      case Arrive(ask) => Arrived(s, ask)
      case GiveUp(g) => GivenUp(s, g)
      case DrainAbort => AbortDrained(s)
      case DrainSubmit => SubmitDrained(h, s)
      case RunJob(texts, outcome) => JobRun(s, texts, outcome)
      case BeginStep => Begun(s)
      case RunAction => ActionRun(h, s)
      case StepFails => AllFailed(s)
      case Reap => SeqsReaped(s)
  }

  // ---------------------------------------------------------------------------
  // What every step keeps
  // ---------------------------------------------------------------------------

  ghost function Unreleased<C, L, S>(s: Server<C, L, S>): set<int> { set g | g in s.reqs && !s.reqs[g].released }

  ghost function GivenBack<C, L, S>(s: Server<C, L, S>): set<int> { set g | g in s.reqs && s.reqs[g].released }

  /** The counter is the number of admitted requests that have not given their slot back. */
  ghost predicate CountOk<C, L, S>(s: Server<C, L, S>) {
    && s.inflight == |Unreleased(s)| && s.inflight <= s.limits.maxQueued && s.served == |GivenBack(s)|
    && forall g :: g in s.reqs ==> g < s.nextReq
  }

  function TokenNotes(ids: seq<int>): (q: seq<Note>)
    ensures |q| == |ids|
  {
    seq(|ids|, i requires 0 <= i < |ids| => TokenId(ids[i]))
  }

  /** Before the end a stream has been sent exactly its ids; the end adds one terminal note, the last. */
  ghost predicate Sent<S>(r: Req<S>) {
    && (r.end.Some? ==> Terminal(r.end.value))
    && if !r.ask.stream then r.q == []
       else if r.end.None? then r.q == TokenNotes(r.ids)
       else
         && |r.q| > 0 && r.q[|r.q| - 1] == r.end.value
         && (forall i :: 0 <= i < |r.q| - 1 ==> !Terminal(r.q[i]))
         && (r.ask.Batched? ==> r.q[..|r.q| - 1] == TokenNotes(r.ids))
  }

  ghost predicate Held<C, L, S>(s: Server<C, L, S>, sid: int) { InFlight(s.eng.sched, sid) }

  /** A request that is not over is in exactly one place: its queue, or the scheduler. */
  ghost predicate Placed<C, L, S>(s: Server<C, L, S>, g: int)
    requires g in s.reqs
  {
    var r := s.reqs[g];
    r.end.None? ==>
      if r.ask.Exclusive? then g in s.exclQ else if r.seqId.None? then g in s.submitQ else Held(s, r.seqId.value)
  }

  /** What a batched request holds, by how it ended: all of its single-shot output, or some of it. */
  ghost predicate Answered<C, L, S>(h: Host<C, L, S>, r: Req<S>)
    requires Runnable(r.ask)
  {
    var o := SingleShot(h, r.ask.prompt, r.ask.start, r.ask.maxNew);
    if r.end.Some? && r.end.value.Finish? then r.ids == o.gen && r.end.value.reason == ReasonText(o.reason)
    else r.ids <= o.gen
  }

  ghost predicate SameAsk<C, L, S>(ask: Ask<S>, info: Info<C, L, S>) {
    ask.Batched? && info.prompt == ask.prompt && info.maxNew == ask.maxNew && info.start == ask.start
  }

  /** A submitted request has heard what its record generated; it failed only if it was, or will be, aborted. */
  ghost predicate Linked<C, L, S>(s: Server<C, L, S>, g: int, sid: int)
    requires g in s.reqs
  {
    var r := s.reqs[g];
    && sid in s.owner && s.owner[sid] == g
    && (sid in s.eng.seqs ==> SameAsk(r.ask, s.eng.seqs[sid]) && r.ids == s.eng.seqs[sid].gen)
    && (r.end.Some? && r.end.value.Finish? ==> !Held(s, sid) && sid !in s.eng.aborted)
    && (r.end == Some(Error) ==> Held(s, sid) || sid in s.eng.aborted)
  }

  /** Everything about a request but its queue and its place. */
  ghost predicate Kept<C, L, S>(h: Host<C, L, S>, s: Server<C, L, S>, g: int)
    requires g in s.reqs
  {
    var r := s.reqs[g];
    && (r.end.Some? ==> r.released)
    && (r.ask.Batched? ==> r.ask.maxNew >= 1 && Answered(h, r))
    && (r.ask.Exclusive? ==> r.seqId.None?)
    && (r.seqId.None? ==> r.ids == [] && (r.ask.Batched? ==> r.end.None? || r.end == Some(Error)))
    && (r.seqId.Some? ==> Linked(s, g, r.seqId.value))
  }

  ghost predicate ReqOk<C, L, S>(h: Host<C, L, S>, s: Server<C, L, S>, g: int)
    requires g in s.reqs
  {
    Sent(s.reqs[g]) && Placed(s, g) && Kept(h, s, g)
  }

  ghost predicate ReqsOk<C, L, S>(h: Host<C, L, S>, s: Server<C, L, S>) {
    forall g :: g in s.reqs ==> ReqOk(h, s, g)
  }

  /** A waiting request of the given kind. */
  ghost predicate Waiting<C, L, S>(s: Server<C, L, S>, g: int, exclusive: bool) {
    g in s.reqs && s.reqs[g].ask.Exclusive? == exclusive && s.reqs[g].seqId.None? && s.reqs[g].end.None?
  }

  ghost predicate QueueOk<C, L, S>(s: Server<C, L, S>, queue: seq<int>, exclusive: bool) {
    && (forall i :: 0 <= i < |queue| ==> Waiting(s, queue[i], exclusive))
    && (forall i, j :: 0 <= i < j < |queue| ==> queue[i] != queue[j])
  }

  ghost predicate QueuesOk<C, L, S>(s: Server<C, L, S>) {
    QueueOk(s, s.submitQ, false) && QueueOk(s, s.exclQ, true)
  }

  ghost predicate HasSink<C, L, S>(s: Server<C, L, S>, sid: int) {
    sid in s.owner && sid in s.eng.seqs && s.eng.seqs[sid].sink.Some?
  }

  ghost predicate Owned<C, L, S>(s: Server<C, L, S>, sid: int) {
    Known(s, sid) && sid < s.eng.nextSeq && s.reqs[s.owner[sid]].seqId == Some(sid)
  }

  /** Every record of the engine has a sink, which is a request that knows its sequence. */
  ghost predicate OwnersOk<C, L, S>(s: Server<C, L, S>) {
    && (forall sid :: sid in s.eng.seqs ==> HasSink(s, sid))
    && (forall sid :: sid in s.owner ==> Owned(s, sid))
  }

  ghost predicate EngineOk<C, L, S>(h: Host<C, L, S>, s: Server<C, L, S>) {
    EngValid(h, s.eng) && Pending(s.eng.sched, s.plan)
  }

  /** Everything but the link between the scheduler and the sinks. */
  ghost predicate Core<C, L, S>(h: Host<C, L, S>, s: Server<C, L, S>) {
    CountOk(s) && QueuesOk(s) && EngineOk(h, s) && OwnersOk(s) && ReqsOk(h, s)
  }

  /** A sequence that the scheduler holds has a sink that is not over. */
  ghost predicate Open<C, L, S>(s: Server<C, L, S>, sid: int) {
    Known(s, sid) && s.reqs[s.owner[sid]].end.None?
  }

  ghost predicate AllOpen<C, L, S>(s: Server<C, L, S>) {
    forall sid :: Held(s, sid) ==> Open(s, sid)
  }

  ghost predicate Sound<C, L, S>(h: Host<C, L, S>, s: Server<C, L, S>) { Core(h, s) && AllOpen(s) }

  // ---------------------------------------------------------------------------
  // Ending a request
  // ---------------------------------------------------------------------------

  /** What has been sent so far can be closed by a terminal note. */
  ghost predicate Closable<S>(r: Req<S>) {
    && (forall i :: 0 <= i < |r.q| ==> !Terminal(r.q[i]))
    && (if r.ask.stream then r.ask.Batched? ==> r.q == TokenNotes(r.ids) else r.q == [])
  }

  /** Everything about request g except where it is placed. */
  ghost predicate Ending<C, L, S>(h: Host<C, L, S>, s: Server<C, L, S>, g: int) {
    && g in s.reqs && g !in s.submitQ && g !in s.exclQ
    && (if s.reqs[g].end.Some? then Sent(s.reqs[g]) else Closable(s.reqs[g]))
    && Kept(h, s, g)
  }

  ghost predicate OthersOk<C, L, S>(h: Host<C, L, S>, s: Server<C, L, S>, g: int) {
    forall x :: x in s.reqs && x != g ==> ReqOk(h, s, x)
  }

  /** Core with request g about to end. */
  ghost predicate CoreBut<C, L, S>(h: Host<C, L, S>, s: Server<C, L, S>, g: int) {
    CountOk(s) && QueuesOk(s) && EngineOk(h, s) && OwnersOk(s) && Ending(h, s, g) && OthersOk(h, s, g)
  }

  /** Ending request g with this note keeps its answer and its link. */
  ghost predicate MayEnd<C, L, S>(h: Host<C, L, S>, s: Server<C, L, S>, g: int, n: Note)
    requires g in s.reqs
  {
    var r := s.reqs[g];
    && Terminal(n) && (r.ask.Batched? && r.seqId.None? ==> n == Error)
    && (Runnable(r.ask) ==> Answered(h, r.(end := Some(n))))
    && (r.seqId.Some? ==> if n.Finish? then !Held(s, r.seqId.value) && r.seqId.value !in s.eng.aborted
                          else Held(s, r.seqId.value) || r.seqId.value in s.eng.aborted)
  }

  lemma SentClosable<S>(r: Req<S>)
    requires Sent(r) && r.end.None?
    ensures Closable(r)
  {
  }

  lemma CloseSends<S>(r: Req<S>, n: Note)
    requires Closable(r) && Terminal(n) && r.end.None?
    ensures Sent(Put(r, n).(end := Some(n), released := true))
  {
    if r.ask.stream { assert (r.q + [n])[..|r.q|] == r.q; }
  }

  /** Giving a slot back moves one request from one count to the other. */
  lemma {:induction false} ReleaseCounts<C, L, S>(s: Server<C, L, S>, g: int)
    requires CountOk(s) && g in s.reqs
    ensures CountOk(Released(s, g))
  {
    var s' := Released(s, g);
    if !s.reqs[g].released {
      assert Unreleased(s') == Unreleased(s) - {g};
      assert GivenBack(s') == GivenBack(s) + {g};
    }
  }

  /** A change that keeps the release flags keeps the counts. */
  ghost predicate SameFlags<C, L, S>(s: Server<C, L, S>, s': Server<C, L, S>) {
    && s'.inflight == s.inflight && s'.served == s.served && s'.limits == s.limits && s'.nextReq == s.nextReq
    && (forall g :: g in s'.reqs <==> g in s.reqs)
    && forall g :: g in s.reqs ==> s'.reqs[g].released == s.reqs[g].released
  }

  lemma {:induction false} SameCounts<C, L, S>(s: Server<C, L, S>, s': Server<C, L, S>)
    requires CountOk(s) && SameFlags(s, s')
    ensures CountOk(s')
  {
    forall g | g in s.reqs ensures g in s'.reqs && s'.reqs[g].released == s.reqs[g].released {}
    forall g | g in s'.reqs ensures g in s.reqs {}
    assert Unreleased(s') == Unreleased(s);
    assert GivenBack(s') == GivenBack(s);
  }

  /** Only request g changes, in what it heard and how it ended. */
  ghost predicate OnlyReq<C, L, S>(s: Server<C, L, S>, s': Server<C, L, S>, g: int) {
    && g in s.reqs && g in s'.reqs && s'.reqs == s.reqs[g := s'.reqs[g]]
    && s'.reqs[g].seqId == s.reqs[g].seqId && s'.reqs[g].ask == s.reqs[g].ask
    && s'.submitQ == s.submitQ && s'.exclQ == s.exclQ && s'.eng == s.eng && s'.owner == s.owner && s'.plan == s.plan
  }

  /** Requests other than g, the queues and the owners, when only request g changes. */
  lemma {:induction false} OthersKept<C, L, S>(h: Host<C, L, S>, s: Server<C, L, S>, s': Server<C, L, S>, g: int)
    requires OnlyReq(s, s', g) && g !in s.submitQ && g !in s.exclQ
    requires QueuesOk(s) && EngineOk(h, s) && OwnersOk(s) && OthersOk(h, s, g)
    ensures QueuesOk(s') && EngineOk(h, s') && OwnersOk(s') && OthersOk(h, s', g)
  {
    hide Sent, Answered, SameAsk, EngValid, Pending, InFlight;
    forall i | 0 <= i < |s.submitQ| ensures Waiting(s', s'.submitQ[i], false) {
      assert Waiting(s, s.submitQ[i], false) && s.submitQ[i] in s.submitQ;
    }
    forall i | 0 <= i < |s.exclQ| ensures Waiting(s', s'.exclQ[i], true) {
      assert Waiting(s, s.exclQ[i], true) && s.exclQ[i] in s.exclQ;
    }
    forall sid | sid in s'.eng.seqs ensures HasSink(s', sid) { assert HasSink(s, sid); }
    forall sid | sid in s'.owner ensures Owned(s', sid) { assert Owned(s, sid); }
    forall x | x in s'.reqs && x != g ensures ReqOk(h, s', x) { assert ReqOk(h, s, x); }
  }

  lemma {:induction false} EndCore<C, L, S>(h: Host<C, L, S>, s: Server<C, L, S>, g: int, n: Note)
    requires CoreBut(h, s, g) && (s.reqs[g].end.None? ==> MayEnd(h, s, g, n))
    ensures Core(h, End(s, g, n))
  {
    hide CountOk, QueuesOk, EngineOk, OwnersOk, ReqOk, Sent, Closable, Kept, MayEnd;
    if s.reqs[g].end.Some? {
      OverOk(h, s, g);
    } else {
      EndCounts(s, g, n);
      EndChanges(s, g, n);
      OthersKept(h, s, End(s, g, n), g);
      EndedOk(h, s, g, n);
    }
  }

  lemma OverOk<C, L, S>(h: Host<C, L, S>, s: Server<C, L, S>, g: int)
    requires Ending(h, s, g) && s.reqs[g].end.Some?
    ensures ReqOk(h, s, g)
  {
  }

  lemma {:induction false} EndCounts<C, L, S>(s: Server<C, L, S>, g: int, n: Note)
    requires g in s.reqs && CountOk(s)
    ensures CountOk(End(s, g, n))
  {
    if s.reqs[g].end.None? {
      var mid := s.(reqs := s.reqs[g := Put(s.reqs[g], n).(end := Some(n))]);
      SameCounts(s, mid);
      ReleaseCounts(mid, g);
    }
  }

  lemma EndChanges<C, L, S>(s: Server<C, L, S>, g: int, n: Note)
    requires g in s.reqs
    ensures OnlyReq(s, End(s, g, n), g)
  {
    var s' := End(s, g, n);
    assert s'.reqs == s.reqs[g := s'.reqs[g]];
  }

  lemma {:induction false} EndedOk<C, L, S>(h: Host<C, L, S>, s: Server<C, L, S>, g: int, n: Note)
    requires Ending(h, s, g) && s.reqs[g].end.None? && MayEnd(h, s, g, n)
    ensures ReqOk(h, End(s, g, n), g)
  {
    hide Sent, Closable, SingleShot, InFlight;
    CloseSends(s.reqs[g], n);
    EndedKept(h, s, g, n);
  }

  lemma {:induction false} EndedKept<C, L, S>(h: Host<C, L, S>, s: Server<C, L, S>, g: int, n: Note)
    requires g in s.reqs && Kept(h, s, g) && s.reqs[g].end.None? && MayEnd(h, s, g, n)
    ensures Kept(h, End(s, g, n), g)
  {
    hide SingleShot, InFlight, SameAsk;
    var r, r' := s.reqs[g], End(s, g, n).reqs[g];
    assert r'.end == Some(n) && r'.released && r'.ids == r.ids && r'.ask == r.ask && r'.seqId == r.seqId;
  }

  /** Ending the sink of a sequence that the scheduler does not hold leaves the others open. */
  lemma {:induction false} EndOpen<C, L, S>(s: Server<C, L, S>, g: int, n: Note)
    requires g in s.reqs && forall sid :: Held(s, sid) ==> Open(s, sid) && s.owner[sid] != g
    ensures AllOpen(End(s, g, n))
  {
    var s' := End(s, g, n);
    EndChanges(s, g, n);
    forall sid | Held(s', sid) ensures Open(s', sid) { assert Held(s, sid) && Open(s, sid); }
  }

  // ---------------------------------------------------------------------------
  // The engine moves
  // ---------------------------------------------------------------------------

  /** The request of a submitted sequence is in no queue. */
  lemma {:induction false} OwnerNotQueued<C, L, S>(s: Server<C, L, S>, sid: int)
    requires QueuesOk(s) && OwnersOk(s) && sid in s.owner
    ensures Owned(s, sid) && s.owner[sid] !in s.submitQ && s.owner[sid] !in s.exclQ
  {
    assert Owned(s, sid);
    if s.owner[sid] in s.submitQ { InQueue(s, s.submitQ, false, s.owner[sid]); }
    if s.owner[sid] in s.exclQ { InQueue(s, s.exclQ, true, s.owner[sid]); }
  }

  lemma {:induction false} InQueue<C, L, S>(s: Server<C, L, S>, queue: seq<int>, exclusive: bool, g: int)
    requires QueueOk(s, queue, exclusive) && g in queue
    ensures Waiting(s, g, exclusive)
  {
  }

  /** The sequences that the scheduler holds are in the engine's tables, so they have a sink. */
  lemma {:induction false} HeldKnown<C, L, S>(h: Host<C, L, S>, s: Server<C, L, S>, sid: int)
    requires EngineOk(h, s) && OwnersOk(s) && Held(s, sid)
    ensures HasSink(s, sid) && Owned(s, sid)
  {
    assert AllTracked(h, s.eng);
    hide EngValid, AllTracked, Pending;
    InFlightTracked(h, s.eng, sid);
    assert HasSink(s, sid);
  }

  lemma {:induction false} SameQueues<C, L, S>(s: Server<C, L, S>, s': Server<C, L, S>)
    requires QueuesOk(s) && s'.submitQ == s.submitQ && s'.exclQ == s.exclQ && s'.reqs == s.reqs
    ensures QueuesOk(s')
  {
    forall i | 0 <= i < |s.submitQ|
      ensures Waiting(s', s'.submitQ[i], false) { assert Waiting(s, s.submitQ[i], false); }
    forall i | 0 <= i < |s.exclQ| ensures Waiting(s', s'.exclQ[i], true) { assert Waiting(s, s.exclQ[i], true); }
  }

  /** The engine changed, but no record, and nothing about what the scheduler holds. */
  ghost predicate EngineSame<C, L, S>(e: Eng<C, L, S>, e': Eng<C, L, S>) {
    && e.nextSeq <= e'.nextSeq && e'.aborted == e.aborted
    && (forall sid :: InFlight(e'.sched, sid) <==> InFlight(e.sched, sid))
    && (forall sid :: sid in e'.seqs ==> sid in e.seqs && e'.seqs[sid] == e.seqs[sid])
  }

  lemma {:induction false} EngineKept<C, L, S>(h: Host<C, L, S>, s: Server<C, L, S>, s': Server<C, L, S>)
    requires Core(h, s) && s' == s.(eng := s'.eng, plan := s'.plan, abortQ := s'.abortQ) && EngineSame(s.eng, s'.eng) &&
      EngineOk(h, s')
    ensures Core(h, s') && (AllOpen(s) ==> AllOpen(s'))
  {
    SameCounts(s, s');
    SameQueues(s, s');
    hide CountOk, Sent, Answered, SameAsk, EngineOk, InFlight, QueuesOk, Waiting;
    forall sid | sid in s'.eng.seqs ensures HasSink(s', sid) { assert HasSink(s, sid); }
    forall sid | sid in s'.owner ensures Owned(s', sid) { assert Owned(s, sid); }
    hide ReqOk;
    forall g | g in s'.reqs ensures ReqOk(h, s', g) { SameReq(h, s, s', g); }
    if AllOpen(s) {
      forall sid | Held(s', sid) ensures Open(s', sid) { assert Held(s, sid) && Open(s, sid); }
    }
  }

  lemma {:induction false} SameReq<C, L, S>(h: Host<C, L, S>, s: Server<C, L, S>, s': Server<C, L, S>, g: int)
    requires g in s.reqs && ReqOk(h, s, g) && s' == s.(eng := s'.eng, plan := s'.plan, abortQ := s'.abortQ) &&
      EngineSame(s.eng, s'.eng)
    ensures ReqOk(h, s', g)
  {
    hide Sent, Answered, SameAsk, InFlight;
  }

  /** Only the record of sequence sid changed, which the scheduler held before. */
  ghost predicate OnlySeq<C, L, S>(e: Eng<C, L, S>, e': Eng<C, L, S>, sid: int) {
    && sid in e.seqs && sid in e'.seqs && e'.seqs == e.seqs[sid := e'.seqs[sid]]
    && e'.seqs[sid].prompt == e.seqs[sid].prompt && e'.seqs[sid].maxNew == e.seqs[sid].maxNew
    && e'.seqs[sid].start == e.seqs[sid].start && e'.seqs[sid].sink.Some? == e.seqs[sid].sink.Some?
    && e'.order == e.order && e'.nextSeq == e.nextSeq
    && InFlight(e.sched, sid) && (forall x :: x != sid ==> (InFlight(e'.sched, x) <==> InFlight(e.sched, x)))
    && (forall x :: x != sid ==> (x in e'.aborted <==> x in e.aborted))
  }

  /** The request after it heard these tokens. */
  function WithTokens<S>(r: Req<S>, ids: seq<int>): Req<S> {
    r.(ids := r.ids + ids, q := if r.ask.stream then r.q + TokenNotes(ids) else r.q)
  }

  /** The engine moved sequence sid, and its request heard exactly the tokens it generated. */
  ghost predicate Moves<C, L, S>(h: Host<C, L, S>, s: Server<C, L, S>, s': Server<C, L, S>, sid: int, ids: seq<int>) {
    && Owned(s, sid) &&
      s' == s.(eng := s'.eng, plan := s'.plan, reqs := s.reqs[s.owner[sid] := WithTokens(s.reqs[s.owner[sid]], ids)])
    && OnlySeq(s.eng, s'.eng, sid) && s'.eng.seqs[sid].gen == s.eng.seqs[sid].gen + ids
    && (s.reqs[s.owner[sid]].end.Some? ==> ids == [] && (Held(s', sid) || sid in s'.eng.aborted))
  }

  /** What every record holds is a prefix of its single-shot output. */
  lemma {:induction false} GenPrefix<C, L, S>(h: Host<C, L, S>, e: Eng<C, L, S>, sid: int)
    requires EngValid(h, e) && sid in e.seqs
    ensures var i := e.seqs[sid]; i.gen <= SingleShot(h, i.prompt, i.start, i.maxNew).gen
  {
    hide Scheduling.Valid, SingleShot;
    if InFlight(e.sched, sid) {
      TrackedLive(h, e, sid);
      var i := e.seqs[sid];
      PrefixOfShot(h, i.prompt, i.start, i.maxNew, |i.gen|);
    } else {
      assert Ended(h, e, sid);
    }
  }

  lemma WithTokensSent<S>(r: Req<S>, ids: seq<int>)
    requires Sent(r) && r.end.None? && r.ask.Batched?
    ensures Sent(WithTokens(r, ids))
  {
    if r.ask.stream { assert TokenNotes(r.ids + ids) == TokenNotes(r.ids) + TokenNotes(ids); }
  }

  lemma WithNoTokens<S>(r: Req<S>)
    ensures WithTokens(r, []) == r
  {
    assert r.ids + [] == r.ids && r.q + TokenNotes([]) == r.q;
  }

  /** A move of the engine leaves everything in order but the place of the request that heard it. */
  lemma {:induction false} MoveCore<C, L, S>(h: Host<C, L, S>, s: Server<C, L, S>, s': Server<C, L, S>, sid: int,
                                             ids: seq<int>)
    requires Core(h, s) && Moves(h, s, s', sid, ids) && EngineOk(h, s')
    ensures CoreBut(h, s', s.owner[sid])
  {
    var g := s.owner[sid];
    hide CountOk, EngValid, Pending, InFlight, WithTokens, QueuesOk, OwnersOk, ReqOk, OthersOk, Ending, OnlySeq;
    MoveFlags(s, s', g, ids);
    OwnerNotQueued(s, sid);
    MoveOwners(h, s, s', sid, ids);
    MoveOthers(h, s, s', sid, ids);
    assert ReqOk(h, s, g);
    MoveEnding(h, s, s', sid, ids);
  }

  /** The other sequences that the scheduler holds have another request, which stays open. */
  lemma {:induction false} MoveOpen<C, L, S>(h: Host<C, L, S>, s: Server<C, L, S>, s': Server<C, L, S>, sid: int,
                                             ids: seq<int>)
    requires Core(h, s) && AllOpen(s) && Moves(h, s, s', sid, ids)
    ensures forall x :: x != sid && Held(s', x) ==> Open(s', x) && s'.owner[x] != s.owner[sid]
  {
    hide CountOk, QueuesOk, EngineOk, OwnersOk, ReqsOk, WithTokens;
    forall x | x != sid && Held(s', x) ensures Open(s', x) && s'.owner[x] != s.owner[sid] {
      assert Held(s, x);
      assert Open(s, x);
      HeldKnown(h, s, x);
    }
  }

  lemma {:induction false} MoveFlags<C, L, S>(s: Server<C, L, S>, s': Server<C, L, S>, g: int, ids: seq<int>)
    requires CountOk(s) && g in s.reqs
    requires s' == s.(eng := s'.eng, plan := s'.plan, reqs := s.reqs[g := WithTokens(s.reqs[g], ids)])
    ensures CountOk(s')
  {
    SameCounts(s, s');
  }

  lemma {:induction false} MoveOwners<C, L, S>(h: Host<C, L, S>, s: Server<C, L, S>, s': Server<C, L, S>, sid: int,
                                               ids: seq<int>)
    requires QueuesOk(s) && OwnersOk(s) && Moves(h, s, s', sid, ids)
    ensures QueuesOk(s') && OwnersOk(s')
  {
    OwnerNotQueued(s, sid);
    hide InFlight;
    forall i | 0 <= i < |s.submitQ| ensures Waiting(s', s'.submitQ[i], false) {
      assert Waiting(s, s.submitQ[i], false) && s.submitQ[i] in s.submitQ;
    }
    forall i | 0 <= i < |s.exclQ| ensures Waiting(s', s'.exclQ[i], true) {
      assert Waiting(s, s.exclQ[i], true) && s.exclQ[i] in s.exclQ;
    }
    forall x | x in s'.eng.seqs ensures HasSink(s', x) { assert HasSink(s, x); }
    forall x | x in s'.owner ensures Owned(s', x) { assert Owned(s, x); }
  }

  lemma {:induction false} MoveOthers<C, L, S>(h: Host<C, L, S>, s: Server<C, L, S>, s': Server<C, L, S>, sid: int,
                                               ids: seq<int>)
    requires OwnersOk(s) && ReqsOk(h, s) && Moves(h, s, s', sid, ids)
    ensures OthersOk(h, s', s.owner[sid])
  {
    var g := s.owner[sid];
    hide Sent, Answered, InFlight, WithTokens, SameAsk;
    forall x | x in s'.reqs && x != g ensures ReqOk(h, s', x) {
      assert ReqOk(h, s, x);
      if s.reqs[x].seqId.Some? { assert s.reqs[x].seqId.value != sid; }
    }
  }

  lemma {:induction false} MoveEnding<C, L, S>(h: Host<C, L, S>, s: Server<C, L, S>, s': Server<C, L, S>, sid: int,
                                               ids: seq<int>)
    requires Moves(h, s, s', sid, ids) && EngValid(h, s'.eng) && HasSink(s, sid) && ReqOk(h, s, s.owner[sid])
    requires s.owner[sid] !in s.submitQ && s.owner[sid] !in s.exclQ
    ensures Ending(h, s', s.owner[sid])
  {
    var g := s.owner[sid];
    var r, r' := s.reqs[g], s'.reqs[g];
    GenPrefix(h, s'.eng, sid);
    hide EngValid, InFlight, SingleShot;
    if r.end.Some? {
      WithNoTokens(r);
    } else {
      WithTokensSent(r, ids);
      hide Sent;
      SentClosable(r');
    }
  }

  // ---------------------------------------------------------------------------
  // What one operation of the engine does to one sequence
  // ---------------------------------------------------------------------------

  lemma {:induction false} CancelledMoves<C, L, S>(h: Host<C, L, S>, e: Eng<C, L, S>, sid: int)
    requires Scheduling.Valid(e.sched) && InFlight(e.sched, sid) && sid in e.seqs
    ensures var e' := Cancelled(e, sid);
      && OnlySeq(e, e', sid) && e'.seqs[sid].gen == e.seqs[sid].gen
      && e'.aborted == e.aborted + {sid} && (forall x :: InFlight(e'.sched, x) <==> InFlight(e.sched, x) && x != sid)
  {
    hide InFlight, Scheduling.Aborted, Scheduling.Valid;
    AbortedInFlight(e.sched, sid);
    assert Cancelled(e, sid).seqs == e.seqs[sid := Emit(e.seqs[sid], Failed)];
  }

  lemma {:induction false} ExecutedMoves<C, L, S>(h: Host<C, L, S>, e: Eng<C, L, S>, a: Action, rest: seq<Action>)
    requires EngValid(h, e) && Pending(e.sched, [a] + rest)
    ensures var e' := Executed(h, e, a);
      && EngValid(h, e') && Pending(e'.sched, rest) && OnlySeq(e, e', a.seqId)
      && e.seqs[a.seqId].gen <= e'.seqs[a.seqId].gen && e'.aborted == e.aborted && a.seqId !in e.aborted
  {
    assert ([a] + rest)[0] == a;
    assert ForRunning(e.sched, a);
    hide EngValid, InFlight, Executed, ActionFor, Pending, OnlySeq;
    ExecuteReady(h, e, a, rest);
    var r :| r in e.sched.running && a == ActionFor(e.sched.cfg, r);
    ActionId(e.sched.cfg, r);
    ExecutedOnly(h, e, r);
    NotAborted(h, e, r.seqId);
  }

  lemma {:induction false} ExecutedOnly<C, L, S>(h: Host<C, L, S>, e: Eng<C, L, S>, r: Request)
    requires EngValid(h, e) && r in e.sched.running && r.seqId in IdSet(e.sched.running)
    ensures var e' := Executed(h, e, ActionFor(e.sched.cfg, r));
      OnlySeq(e, e', r.seqId) && e.seqs[r.seqId].gen <= e'.seqs[r.seqId].gen && e'.aborted == e.aborted
  {
    hide EngValid, InFlight, Executed, ActionFor, Ran, Scheduling.Finish, Replace, Moved, Scheduling.Valid, IdSet;
    var a := ActionFor(e.sched.cfg, r);
    RunningKnown(h, e, r);
    NotAborted(h, e, r.seqId);
    ExecutedShape(h, e, r);
    ExecutedHolds(h, e, r);
    RanKeeps(h, e.seqs[r.seqId], a);
    var i := Ran(h, e.seqs[r.seqId], a).0;
    assert Executed(h, e, a).seqs == e.seqs[r.seqId := i];
    assert e.seqs[r.seqId := i][r.seqId] == i;
  }

  lemma NotAborted<C, L, S>(h: Host<C, L, S>, e: Eng<C, L, S>, sid: int)
    requires EngValid(h, e) && sid in IdSet(e.sched.running)
    ensures InFlight(e.sched, sid) && sid !in e.aborted
  {
    hide IdSet;
  }

  lemma RanKeeps<C, L, S>(h: Host<C, L, S>, info: Info<C, L, S>, a: Action)
    ensures var i := Ran(h, info, a).0;
      && i.prompt == info.prompt && i.maxNew == info.maxNew && i.start == info.start
      && i.sink.Some? == info.sink.Some? && info.gen <= i.gen
  {
    hide LogitsAt, CacheAt;
  }

  /** An action changes nothing about the other sequences the scheduler holds. */
  lemma {:induction false} ExecutedHolds<C, L, S>(h: Host<C, L, S>, e: Eng<C, L, S>, r: Request)
    requires EngValid(h, e) && r in e.sched.running
    ensures var e' := Executed(h, e, ActionFor(e.sched.cfg, r));
      forall x :: x != r.seqId ==> (InFlight(e'.sched, x) <==> InFlight(e.sched, x))
  {
    hide EngValid, Executed, ActionFor, Ran, Scheduling.Finish, Replace, Moved, Scheduling.Valid, IdSet;
    RunningKnown(h, e, r);
    ExecutedShape(h, e, r);
    var r' := Moved(r, ActionFor(e.sched.cfg, r));
    MovedId(r, ActionFor(e.sched.cfg, r));
    FinishIds(e.sched, r');
    FinishWaiting(e.sched, r');
    ReplaceIds(e.sched.running, r');
  }

  lemma {:induction false} ReplaceIds(rs: seq<Request>, r: Request)
    ensures forall x :: x != r.seqId ==> (x in IdSet(Replace(rs, r)) <==> x in IdSet(rs))
  {
    var rs' := Replace(rs, r);
    forall x | x != r.seqId && x in IdSet(rs) ensures x in IdSet(rs') {
      var y :| y in rs && y.seqId == x;
      var i :| 0 <= i < |rs| && rs[i] == y;
      assert rs'[i] == y;
    }
    forall x | x != r.seqId && x in IdSet(rs') ensures x in IdSet(rs) {
      var y :| y in rs' && y.seqId == x;
      OnlyOthers(rs, r, y);
    }
  }

  /** The callbacks of an action: its token, if any, and the reason when the sequence is complete. */
  lemma {:induction false} ActionEvents<C, L, S>(h: Host<C, L, S>, e: Eng<C, L, S>, e': Eng<C, L, S>, sid: int,
                                                 ids: seq<int>)
    requires EngValid(h, e) && EngValid(h, e') && OnlySeq(e, e', sid) && e'.aborted == e.aborted && sid !in e.aborted
    requires e.seqs[sid].sink.Some? && e.seqs[sid].maxNew > 0 && e'.seqs[sid].gen == e.seqs[sid].gen + ids
    ensures var i := e.seqs[sid]; var o := SingleShot(h, i.prompt, i.start, i.maxNew);
      && (InFlight(e'.sched, sid) ==> NewEvents(e, e', sid) == Batching.TokenEvents(ids))
      && (!InFlight(e'.sched, sid) ==>
            NewEvents(e, e', sid) == Batching.TokenEvents(ids) + [Finished(o.reason)] && e'.seqs[sid].gen == o.gen)
  {
    hide EngValid, InFlight, SingleShot;
    LogOf(h, e, sid);
    LogOf(h, e', sid);
    var gen, gen' := e.seqs[sid].gen, e'.seqs[sid].gen;
    assert Batching.TokenEvents(gen') == Batching.TokenEvents(gen) + Batching.TokenEvents(ids);
  }

  /** What has been called back about a sequence that was not aborted. */
  lemma {:induction false} LogOf<C, L, S>(h: Host<C, L, S>, e: Eng<C, L, S>, sid: int)
    requires EngValid(h, e) && sid in e.seqs && sid !in e.aborted && e.seqs[sid].sink.Some? && e.seqs[sid].maxNew > 0
    ensures var i := e.seqs[sid]; var o := SingleShot(h, i.prompt, i.start, i.maxNew);
      && (InFlight(e.sched, sid) ==> i.sink.value == Batching.TokenEvents(i.gen))
      && (!InFlight(e.sched, sid) ==>
          i.sink.value == Batching.TokenEvents(i.gen) + [Finished(o.reason)] && i.gen == o.gen)
  {
    hide Scheduling.Valid, SingleShot;
    if InFlight(e.sched, sid) { TrackedLive(h, e, sid); } else { assert Ended(h, e, sid); }
  }

  // ---------------------------------------------------------------------------
  // Aborts and actions
  // ---------------------------------------------------------------------------

  lemma {:induction false} DeliverTokens<C, L, S>(s: Server<C, L, S>, g: int, ids: seq<int>)
    requires g in s.reqs
    ensures Delivered(s, g, Batching.TokenEvents(ids)) == s.(reqs := s.reqs[g := WithTokens(s.reqs[g], ids)])
    decreases |ids|
  {
    var evs := Batching.TokenEvents(ids);
    if ids == [] {
      WithNoTokens(s.reqs[g]);
      assert s.reqs[g := s.reqs[g]] == s.reqs;
    } else {
      var k := |ids| - 1;
      DeliverTokens(s, g, ids[..k]);
      assert evs[..k] == Batching.TokenEvents(ids[..k]) && evs[k] == Token(ids[k]);
      OneMoreToken(s.reqs[g], ids);
      hide WithTokens, OnToken;
      assert Delivered(s, g, evs) == Heard(Delivered(s, g, evs[..k]), g, Token(ids[k]));
    }
  }

  lemma OneMoreToken<S>(r: Req<S>, ids: seq<int>)
    requires ids != []
    ensures var k := |ids| - 1; OnToken(WithTokens(r, ids[..k]), ids[k]) == WithTokens(r, ids)
  {
    var k := |ids| - 1;
    var before := WithTokens(r, ids[..k]);
    assert before.ids + [ids[k]] == r.ids + ids;
    assert TokenNotes(ids) == TokenNotes(ids[..k]) + [TokenId(ids[k])];
  }

  lemma AppendDelivered<C, L, S>(s: Server<C, L, S>, g: int, evs: seq<Event>, ev: Event)
    requires g in s.reqs
    ensures Delivered(s, g, evs + [ev]) == Heard(Delivered(s, g, evs), g, ev)
  {
    assert (evs + [ev])[..|evs|] == evs;
  }

  lemma OneDelivered<C, L, S>(s: Server<C, L, S>, g: int, ev: Event)
    requires g in s.reqs
    ensures Delivered(s, g, [ev]) == Heard(s, g, ev)
  {
    assert [ev][..0] == [] && Delivered(s, g, []) == s;
  }

  /** The engine's part of an abort. */
  lemma {:induction false} AbortedMid<C, L, S>(h: Host<C, L, S>, s: Server<C, L, S>, sid: int)
    requires Core(h, s) && s.plan == [] && Held(s, sid) && HasSink(s, sid) && Owned(s, sid)
    ensures var e' := Cancelled(s.eng, sid); var mid := s.(eng := e');
      && Moves(h, s, mid, sid, []) && EngineOk(h, mid) && sid in e'.aborted
      && (forall x :: InFlight(e'.sched, x) <==> Held(s, x) && x != sid)
  {
    hide EngValid, InFlight, OwnersOk, QueuesOk, CountOk, ReqsOk, WithTokens, Scheduling.Valid, Cancelled, Pending;
    CancelledValid(h, s.eng, sid);
    EngSched(h, s.eng);
    NothingPending(Cancelled(s.eng, sid).sched);
    CancelledMoves(h, s.eng, sid);
    var g, mid := s.owner[sid], s.(eng := Cancelled(s.eng, sid));
    WithNoTokens(s.reqs[g]);
    assert s.eng.seqs[sid].gen + [] == s.eng.seqs[sid].gen;
    assert mid.reqs == s.reqs[g := WithTokens(s.reqs[g], [])];
  }

  lemma {:induction false} AbortedCore<C, L, S>(h: Host<C, L, S>, s: Server<C, L, S>, sid: int)
    requires Core(h, s) && s.plan == []
    ensures var s' := SeqAborted(s, sid);
      && Core(h, s') && s'.plan == [] && (AllOpen(s) ==> AllOpen(s'))
      && s'.eng.order == s.eng.order && (forall x :: Held(s', x) <==> Held(s, x) && x != sid)
  {
    hide SeqAborted, EngineOk, Cancelled, InFlight, OwnersOk, QueuesOk, CountOk, ReqsOk, End, CoreBut,
      WithTokens, MayEnd, AllOpen;
    if Held(s, sid) {
      HeldKnown(h, s, sid);
      AbortedIs(s, sid);
      AbortedMid(h, s, sid);
      var g, mid := s.owner[sid], s.(eng := Cancelled(s.eng, sid));
      MoveCore(h, s, mid, sid, []);
      AbortEnds(h, mid, g, sid);
      EndChanges(mid, g, Error);
      if AllOpen(s) {
        MoveOpen(h, s, mid, sid, []);
        EndOpen(mid, g, Error);
      }
    } else {
      AbortedNone(s, sid);
    }
  }

  lemma {:induction false} AbortEnds<C, L, S>(h: Host<C, L, S>, s: Server<C, L, S>, g: int, sid: int)
    requires CoreBut(h, s, g) && s.reqs[g].seqId == Some(sid) && sid in s.eng.aborted
    ensures Core(h, End(s, g, Error))
  {
    hide EngineOk, InFlight, OwnersOk, QueuesOk, CountOk, OthersOk;
    MayFail(h, s, g);
    EndCore(h, s, g, Error);
  }

  lemma {:induction false} AbortedNone<C, L, S>(s: Server<C, L, S>, sid: int)
    requires !Held(s, sid)
    ensures SeqAborted(s, sid) == s
  {
    assert NewEvents(s.eng, s.eng, sid) == [];
  }

  lemma {:induction false} AbortedIs<C, L, S>(s: Server<C, L, S>, sid: int)
    requires HasSink(s, sid) && Known(s, sid) && Held(s, sid)
    ensures SeqAborted(s, sid) == End(s.(eng := Cancelled(s.eng, sid)), s.owner[sid], Error)
  {
    var e' := Cancelled(s.eng, sid);
    assert NewEvents(s.eng, e', sid) == [Failed];
    OneDelivered(s.(eng := e'), s.owner[sid], Failed);
  }

  /** An open request whose sequence is held or aborted may fail. */
  lemma {:induction false} MayFail<C, L, S>(h: Host<C, L, S>, s: Server<C, L, S>, g: int)
    requires Ending(h, s, g)
    requires s.reqs[g].seqId.Some? ==> Held(s, s.reqs[g].seqId.value) || s.reqs[g].seqId.value in s.eng.aborted
    ensures s.reqs[g].end.None? ==> MayEnd(h, s, g, Error)
  {
    hide SingleShot, InFlight, Closable, Sent;
  }

  lemma {:induction false} ActionValid<C, L, S>(h: Host<C, L, S>, s: Server<C, L, S>)
    requires Sound(h, s)
    ensures Sound(h, ActionRun(h, s))
  {
    hide Told, EngValid, Executed, Pending, InFlight, QueuesOk, CountOk, OwnersOk, ReqsOk, AllOpen, Acted;
    if s.plan != [] {
      var ids := ActionEffect(h, s);
      ActionIs(h, s, Executed(h, s.eng, s.plan[0]), s.plan[0].seqId, ids);
    }
  }

  /** What the next action does to the engine, and the tokens its request hears. */
  lemma {:induction false} ActionEffect<C, L, S>(h: Host<C, L, S>, s: Server<C, L, S>) returns (ids: seq<int>)
    requires s.plan != [] && Sound(h, s)
    ensures var e' := Executed(h, s.eng, s.plan[0]);
      EngValid(h, e') && Pending(e'.sched, s.plan[1..]) && Acted(h, s, e', s.plan[0].seqId, ids)
  {
    hide EngValid, Executed, Pending, InFlight, QueuesOk, CountOk, NewEvents, SingleShot, OwnersOk, ReqsOk, Acted;
    var a, rest := s.plan[0], s.plan[1..];
    assert [a] + rest == s.plan;
    ExecutedMoves(h, s.eng, a, rest);
    var e', sid := Executed(h, s.eng, a), a.seqId;
    HeldKnown(h, s, sid);
    assert Open(s, sid);
    ids := e'.seqs[sid].gen[|s.eng.seqs[sid].gen|..];
    OwnerLinked(h, s, sid);
    ActionEvents(h, s.eng, e', sid, ids);
    ActionActed(h, s, e', sid, ids);
  }

  /** The request of a sequence in the engine's tables asked for it and heard what it generated. */
  lemma {:induction false} OwnerLinked<C, L, S>(h: Host<C, L, S>, s: Server<C, L, S>, sid: int)
    requires ReqsOk(h, s) && Owned(s, sid) && sid in s.eng.seqs
    ensures var r := s.reqs[s.owner[sid]];
      SameAsk(r.ask, s.eng.seqs[sid]) && r.ask.maxNew >= 1 && r.ids == s.eng.seqs[sid].gen
  {
    assert ReqOk(h, s, s.owner[sid]);
    hide Sent, Answered, InFlight;
  }

  lemma {:induction false} ActionActed<C, L, S>(h: Host<C, L, S>, s: Server<C, L, S>, e': Eng<C, L, S>, sid: int,
                                                ids: seq<int>)
    requires Owned(s, sid) && Open(s, sid) && OnlySeq(s.eng, e', sid)
    requires e'.seqs[sid].gen == s.eng.seqs[sid].gen + ids && e'.aborted == s.eng.aborted && sid !in e'.aborted
    requires var r := s.reqs[s.owner[sid]];
      SameAsk(r.ask, s.eng.seqs[sid]) && r.ask.maxNew >= 1 && r.ids == s.eng.seqs[sid].gen
    requires var i := s.eng.seqs[sid]; var o := SingleShot(h, i.prompt, i.start, i.maxNew);
      && (InFlight(e'.sched, sid) ==> NewEvents(s.eng, e', sid) == Batching.TokenEvents(ids))
      && (!InFlight(e'.sched, sid) ==>
            NewEvents(s.eng, e', sid) == Batching.TokenEvents(ids) + [Finished(o.reason)] && e'.seqs[sid].gen == o.gen)
    ensures Acted(h, s, e', sid, ids)
  {
    hide SingleShot, InFlight, NewEvents;
  }

  /** The engine ran an action for sequence sid, and its callbacks are these. */
  ghost predicate Acted<C, L, S>(h: Host<C, L, S>, s: Server<C, L, S>, e': Eng<C, L, S>, sid: int, ids: seq<int>) {
    && Owned(s, sid) && Open(s, sid) && OnlySeq(s.eng, e', sid)
    && e'.seqs[sid].gen == s.eng.seqs[sid].gen + ids && e'.aborted == s.eng.aborted && sid !in e'.aborted
    && var r := s.reqs[s.owner[sid]];
       && SameAsk(r.ask, s.eng.seqs[sid]) && r.ask.maxNew >= 1 && r.ids == s.eng.seqs[sid].gen
       && var o := SingleShot(h, r.ask.prompt, r.ask.start, r.ask.maxNew);
          && (InFlight(e'.sched, sid) ==> NewEvents(s.eng, e', sid) == Batching.TokenEvents(ids))
          && (!InFlight(e'.sched, sid) ==>
                NewEvents(s.eng, e', sid) == Batching.TokenEvents(ids) + [Finished(o.reason)] &&
                  e'.seqs[sid].gen == o.gen)
  }

  /** The state after the engine's part of the action, its tokens heard. */
  ghost function Midway<C, L, S>(s: Server<C, L, S>, e': Eng<C, L, S>, sid: int, ids: seq<int>): Server<C, L, S>
    requires s.plan != [] && Known(s, sid)
  {
    s.(plan := s.plan[1..], eng := e', reqs := s.reqs[s.owner[sid] := WithTokens(s.reqs[s.owner[sid]], ids)])
  }

  lemma {:induction false} ActionTold<C, L, S>(h: Host<C, L, S>, s: Server<C, L, S>, e': Eng<C, L, S>, sid: int,
                                               ids: seq<int>)
    requires s.plan != [] && Acted(h, s, e', sid, ids)
    ensures var s' := Told(s.(plan := s.plan[1..]), e', sid); var mid := Midway(s, e', sid, ids);
      var i := s.eng.seqs[sid];
      && (InFlight(e'.sched, sid) ==> s' == mid)
      && (!InFlight(e'.sched, sid) ==>
            s' == End(mid, s.owner[sid], Finish(ReasonText(SingleShot(h, i.prompt, i.start, i.maxNew).reason))))
  {
    hide InFlight, SingleShot, NewEvents, Delivered, WithTokens;
    var i, g, tail := s.eng.seqs[sid], s.owner[sid], s.(plan := s.plan[1..]);
    DeliverTokens(tail.(eng := e'), g, ids);
    var reason := SingleShot(h, i.prompt, i.start, i.maxNew).reason;
    AppendDelivered(tail.(eng := e'), g, Batching.TokenEvents(ids), Finished(reason));
  }

  /** The sequence goes on: its request stays open. */
  lemma {:induction false} ActionOpen<C, L, S>(h: Host<C, L, S>, s: Server<C, L, S>, g: int, sid: int)
    requires CoreBut(h, s, g) && s.reqs[g].end.None? && Owned(s, sid) && s.owner[sid] == g && Held(s, sid) &&
      s.reqs[g].ask.Batched?
    requires forall x :: x != sid && Held(s, x) ==> Open(s, x) && s.owner[x] != g
    ensures Sound(h, s)
  {
    hide EngineOk, InFlight, OwnersOk, QueuesOk, CountOk, Kept;
    assert ReqOk(h, s, g);
    hide ReqOk;
    forall x | x in s.reqs ensures ReqOk(h, s, x) {}
    forall x | Held(s, x) ensures Open(s, x) {}
  }

  /** The sequence is complete: its request ends with the reason. */
  lemma {:induction false} ActionEnds<C, L, S>(h: Host<C, L, S>, s: Server<C, L, S>, g: int, sid: int, reason: string)
    requires CoreBut(h, s, g) && Owned(s, sid) && s.owner[sid] == g && !Held(s, sid) && sid !in s.eng.aborted
    requires Runnable(s.reqs[g].ask) && s.reqs[g].end.None?
    requires var a := s.reqs[g].ask; var o := SingleShot(h, a.prompt, a.start, a.maxNew);
      s.reqs[g].ids == o.gen && reason == ReasonText(o.reason)
    requires forall x :: x != sid && Held(s, x) ==> Open(s, x) && s.owner[x] != g
    ensures Sound(h, End(s, g, Finish(reason)))
  {
    hide EngineOk, InFlight, OwnersOk, QueuesOk, CountOk, Kept, OthersOk, SingleShot, Closable;
    EndCore(h, s, g, Finish(reason));
    EndOpen(s, g, Finish(reason));
  }

  lemma {:induction false} ActionIs<C, L, S>(h: Host<C, L, S>, s: Server<C, L, S>, e': Eng<C, L, S>, sid: int,
                                             ids: seq<int>)
    requires Sound(h, s) && s.plan != [] && EngValid(h, e') && Pending(e'.sched, s.plan[1..]) &&
      Acted(h, s, e', sid, ids)
    ensures Sound(h, Told(s.(plan := s.plan[1..]), e', sid))
  {
    hide EngValid, Pending, InFlight, OwnersOk, QueuesOk, CountOk, ReqsOk, SingleShot, NewEvents, Told, End;
    var g, mid := s.owner[sid], Midway(s, e', sid, ids);
    ActionTold(h, s, e', sid, ids);
    assert Moves(h, s, mid, sid, ids);
    MoveCore(h, s, mid, sid, ids);
    MoveOpen(h, s, mid, sid, ids);
    hide CoreBut, AllOpen;
    if InFlight(e'.sched, sid) {
      ActionOpen(h, mid, g, sid);
    } else {
      var i := s.eng.seqs[sid];
      ActionEnds(h, mid, g, sid, ReasonText(SingleShot(h, i.prompt, i.start, i.maxNew).reason));
    }
  }

  // ---------------------------------------------------------------------------
  // Arrivals, readers that leave, hand-overs and jobs
  // ---------------------------------------------------------------------------

  lemma {:induction false} StartedValid<C, L, S>(h: Host<C, L, S>, limits: Limits, cfg: Config, kvCapacity: nat,
                                                 stateCapacity: nat)
    requires ConfigOk(cfg)
    ensures Sound(h, Started(limits, InitialEng(cfg, kvCapacity, stateCapacity)))
  {
    var e: Eng<C, L, S> := InitialEng(cfg, kvCapacity, stateCapacity);
    InitialEngValid(h, cfg, kvCapacity, stateCapacity);
    assert IdSet(e.sched.running) == {} && IdSet(e.sched.waiting) == {};
    hide EngValid, IdSet, Initial, Pending;
    assert Pending(e.sched, []) by { NothingPending(e.sched); }
    StartedEmpty(h, limits, e);
  }

  lemma NothingPending(s: Sched)
    ensures Pending(s, [])
  {
  }

  lemma {:induction false} StartedEmpty<C, L, S>(h: Host<C, L, S>, limits: Limits, e: Eng<C, L, S>)
    requires EngValid(h, e) && e.seqs == map[] && Pending(e.sched, []) && forall sid :: !InFlight(e.sched, sid)
    ensures Sound(h, Started(limits, e))
  {
    hide EngValid, Pending, InFlight;
    var s := Started(limits, e);
    assert Unreleased(s) == {} && GivenBack(s) == {};
  }

  lemma FreshHandle<C, L, S>(s: Server<C, L, S>)
    requires CountOk(s)
    ensures s.nextReq !in s.reqs
  {
  }

  /** A new request does not disturb the others. */
  ghost predicate Joins<C, L, S>(s: Server<C, L, S>, s': Server<C, L, S>, ask: Ask<S>) {
    && s.nextReq !in s.reqs
    && s' == s.(inflight := s.inflight + 1, reqs := s.reqs[s.nextReq := NewReq(ask)], nextReq := s.nextReq + 1,
                submitQ := s'.submitQ, exclQ := s'.exclQ)
    && s'.submitQ == (if ask.Batched? then s.submitQ + [s.nextReq] else s.submitQ)
    && s'.exclQ == (if ask.Batched? then s.exclQ else s.exclQ + [s.nextReq])
  }

  lemma {:induction false} JoinCounts<C, L, S>(s: Server<C, L, S>, s': Server<C, L, S>, ask: Ask<S>)
    requires CountOk(s) && Joins(s, s', ask) && s.inflight < s.limits.maxQueued
    ensures CountOk(s')
  {
    assert Unreleased(s') == Unreleased(s) + {s.nextReq};
    assert GivenBack(s') == GivenBack(s);
  }

  /** Adding a waiting request to the end of its queue. */
  lemma {:induction false} QueueGrows<C, L, S>(s: Server<C, L, S>, s': Server<C, L, S>, queue: seq<int>,
                                               exclusive: bool, g: int)
    requires QueueOk(s, queue, exclusive) && g !in queue && Waiting(s', g, exclusive)
    requires forall x :: x in queue ==> x in s.reqs && x in s'.reqs && s'.reqs[x] == s.reqs[x]
    ensures QueueOk(s', queue + [g], exclusive)
  {
    QueueKept(s, s', queue, exclusive);
  }

  lemma {:induction false} QueueKept<C, L, S>(s: Server<C, L, S>, s': Server<C, L, S>, queue: seq<int>, exclusive: bool)
    requires QueueOk(s, queue, exclusive)
    requires forall x :: x in queue ==> x in s.reqs && x in s'.reqs && s'.reqs[x] == s.reqs[x]
    ensures QueueOk(s', queue, exclusive)
  {
    forall i | 0 <= i < |queue| ensures Waiting(s', queue[i], exclusive) {
      assert Waiting(s, queue[i], exclusive) && queue[i] in queue;
    }
  }

  lemma {:induction false} Queued<C, L, S>(s: Server<C, L, S>, queue: seq<int>, exclusive: bool)
    requires QueueOk(s, queue, exclusive)
    ensures forall x :: x in queue ==> Waiting(s, x, exclusive)
  {
  }

  lemma {:induction false} JoinQueues<C, L, S>(s: Server<C, L, S>, s': Server<C, L, S>, ask: Ask<S>)
    requires QueuesOk(s) && Joins(s, s', ask)
    ensures QueuesOk(s')
  {
    Queued(s, s.submitQ, false);
    Queued(s, s.exclQ, true);
    QueueKept(s, s', s.submitQ, false);
    QueueKept(s, s', s.exclQ, true);
    if ask.Batched? { QueueGrows(s, s', s.submitQ, false, s.nextReq); }
    else { QueueGrows(s, s', s.exclQ, true, s.nextReq); }
  }

  lemma {:induction false} JoinReqs<C, L, S>(h: Host<C, L, S>, s: Server<C, L, S>, s': Server<C, L, S>, ask: Ask<S>)
    requires ReqsOk(h, s) && OwnersOk(s) && AllOpen(s) && Joins(s, s', ask) && (ask.Batched? ==> ask.maxNew >= 1)
    ensures ReqsOk(h, s') && OwnersOk(s') && AllOpen(s')
  {
    NewReqOk(h, ask);
    hide Sent, Answered, SameAsk, InFlight, NewReq;
    forall sid | sid in s'.eng.seqs ensures HasSink(s', sid) { assert HasSink(s, sid); }
    forall sid | sid in s'.owner ensures Owned(s', sid) { assert Owned(s, sid); }
    forall x | x in s'.reqs ensures ReqOk(h, s', x) { if x != s.nextReq { assert ReqOk(h, s, x); } }
    forall sid | Held(s', sid) ensures Open(s', sid) { assert Held(s, sid) && Open(s, sid); }
  }

  lemma {:induction false} NewReqOk<C, L, S>(h: Host<C, L, S>, ask: Ask<S>)
    ensures var r := NewReq(ask);
      && Sent(r) && (Runnable(ask) ==> Answered(h, r)) && r.ask == ask && r.ids == [] && r.end.None? && r.seqId.None?
  {
    hide SingleShot;
  }

  lemma {:induction false} ArrivedValid<C, L, S>(h: Host<C, L, S>, s: Server<C, L, S>, ask: Ask<S>)
    requires Sound(h, s) && 1 <= s.eng.sched.cfg.blockSize
    ensures Sound(h, Arrived(s, ask))
  {
    if Acceptable(s, ask) && s.inflight < s.limits.maxQueued {
      hide QueuesOk, EngineOk, OwnersOk, ReqsOk, AllOpen, NewReq;
      FreshHandle(s);
      JoinCounts(s, Arrived(s, ask), ask);
      JoinQueues(s, Arrived(s, ask), ask);
      JoinReqs(h, s, Arrived(s, ask), ask);
      hide CountOk;
    }
  }

  lemma {:induction false} AbortQueueIrrelevant<C, L, S>(h: Host<C, L, S>, s: Server<C, L, S>, q: seq<int>)
    requires Sound(h, s)
    ensures Sound(h, s.(abortQ := q))
  {
    hide QueuesOk, EngValid, Pending, OwnersOk, ReqsOk, AllOpen, CountOk, InFlight;
    EngineKept(h, s, s.(abortQ := q));
  }

  lemma {:induction false} GivenUpValid<C, L, S>(h: Host<C, L, S>, s: Server<C, L, S>, g: int)
    requires Sound(h, s)
    ensures Sound(h, GivenUp(s, g))
  {
    if g in s.reqs && s.reqs[g].end.None? {
      var r := s.reqs[g];
      var q := if r.seqId.Some? then s.abortQ + [r.seqId.value] else s.abortQ;
      AbortQueueIrrelevant(h, s, q);
      hide Sound;
      assert s.(abortQ := s.abortQ) == s;
      ReleasedValid(h, s.(abortQ := q), g);
    }
  }

  lemma {:induction false} ReleasedValid<C, L, S>(h: Host<C, L, S>, s: Server<C, L, S>, g: int)
    requires Sound(h, s) && g in s.reqs
    ensures Sound(h, Released(s, g))
  {
    if !s.reqs[g].released {
      var s' := Released(s, g);
      ReleaseCounts(s, g);
      hide CountOk, Sent, Answered, SameAsk, InFlight, EngineOk;
      forall i | 0 <= i < |s.submitQ|
        ensures Waiting(s', s'.submitQ[i], false) { assert Waiting(s, s.submitQ[i], false); }
      forall i | 0 <= i < |s.exclQ| ensures Waiting(s', s'.exclQ[i], true) { assert Waiting(s, s.exclQ[i], true); }
      forall sid | sid in s'.eng.seqs ensures HasSink(s', sid) { assert HasSink(s, sid); }
      forall sid | sid in s'.owner ensures Owned(s', sid) { assert Owned(s, sid); }
      forall x | x in s'.reqs ensures ReqOk(h, s', x) { assert ReqOk(h, s, x); ReleasedOk(h, s, s', x); }
      forall sid | Held(s', sid) ensures Open(s', sid) { assert Held(s, sid) && Open(s, sid); }
      assert EngineOk(h, s') by { ReleasedEngine(h, s, g); }
    }
  }

  lemma ReleasedEngine<C, L, S>(h: Host<C, L, S>, s: Server<C, L, S>, g: int)
    requires EngineOk(h, s) && g in s.reqs
    ensures EngineOk(h, Released(s, g))
  {
    hide EngValid, Pending;
  }

  lemma {:induction false} ReleasedOk<C, L, S>(h: Host<C, L, S>, s: Server<C, L, S>, s': Server<C, L, S>, x: int)
    requires x in s.reqs && ReqOk(h, s, x) && x in s'.reqs
    requires s'.reqs[x] == s.reqs[x] || s'.reqs[x] == s.reqs[x].(released := true)
    requires s'.submitQ == s.submitQ && s'.exclQ == s.exclQ && s'.eng == s.eng && s'.owner == s.owner
    ensures ReqOk(h, s', x)
  {
    hide SameAsk, InFlight, SingleShot;
  }

  lemma {:induction false} AbortDrainedValid<C, L, S>(h: Host<C, L, S>, s: Server<C, L, S>)
    requires Sound(h, s) && s.plan == []
    ensures Sound(h, AbortDrained(s)) && AbortDrained(s).plan == []
  {
    if s.abortQ != [] {
      AbortQueueIrrelevant(h, s, s.abortQ[1..]);
      hide Core, AllOpen, SeqAborted;
      AbortedCore(h, s.(abortQ := s.abortQ[1..]), s.abortQ[0]);
    }
  }

  /** Taking the first request out of its queue leaves only that request without a place. */
  lemma {:induction false} Popped<C, L, S>(h: Host<C, L, S>, s: Server<C, L, S>, exclusive: bool)
    requires Sound(h, s) && (if exclusive then s.exclQ != [] else s.submitQ != [])
    ensures var g := if exclusive then s.exclQ[0] else s.submitQ[0];
      var s' := if exclusive then s.(exclQ := s.exclQ[1..]) else s.(submitQ := s.submitQ[1..]);
      && CoreBut(h, s', g) && s.reqs[g].end.None? && s.reqs[g].ask.Exclusive? == exclusive && s.reqs[g].seqId.None?
      && (forall sid :: Held(s', sid) ==> Open(s', sid) && s'.owner[sid] != g)
  {
    var queue := if exclusive then s.exclQ else s.submitQ;
    var g := queue[0];
    var s' := if exclusive then s.(exclQ := s.exclQ[1..]) else s.(submitQ := s.submitQ[1..]);
    hide Answered, SameAsk, InFlight, EngValid, Pending, QueuesOk, OwnersOk, OthersOk, ReqsOk, CountOk, Waiting;
    SameCounts(s, s');
    FirstWaits(h, s, exclusive);
    WaitingMeans(s, g, exclusive);
    PoppedReqs(h, s, s', exclusive);
    PoppedQueues(s, s', exclusive);
    PoppedOwners(s, s', exclusive);
    forall sid | Held(s', sid) ensures Open(s', sid) && s'.owner[sid] != g {
      assert Held(s, sid) && Open(s, sid);
      HeldKnown(h, s, sid);
    }
  }

  lemma WaitingMeans<C, L, S>(s: Server<C, L, S>, g: int, exclusive: bool)
    requires Waiting(s, g, exclusive)
    ensures g in s.reqs && s.reqs[g].end.None? && s.reqs[g].ask.Exclusive? == exclusive && s.reqs[g].seqId.None?
  {
  }

  lemma {:induction false} PoppedOwners<C, L, S>(s: Server<C, L, S>, s': Server<C, L, S>, exclusive: bool)
    requires OwnersOk(s) && s' == s.(submitQ := s'.submitQ, exclQ := s'.exclQ)
    ensures OwnersOk(s')
  {
    forall sid | sid in s'.eng.seqs ensures HasSink(s', sid) { assert HasSink(s, sid); }
    forall sid | sid in s'.owner ensures Owned(s', sid) { assert Owned(s, sid); }
  }

  lemma {:induction false} PoppedReqs<C, L, S>(h: Host<C, L, S>, s: Server<C, L, S>, s': Server<C, L, S>,
                                               exclusive: bool)
    requires ReqsOk(h, s) && (if exclusive then s.exclQ != [] else s.submitQ != [])
    requires s' == if exclusive then s.(exclQ := s.exclQ[1..]) else s.(submitQ := s.submitQ[1..])
    requires Waiting(s, if exclusive then s.exclQ[0] else s.submitQ[0], exclusive)
    ensures var g := if exclusive then s.exclQ[0] else s.submitQ[0];
      OthersOk(h, s', g) && Kept(h, s', g) && Closable(s'.reqs[g])
  {
    var queue := if exclusive then s.exclQ else s.submitQ;
    var g := queue[0];
    assert ReqOk(h, s, g);
    SentClosable(s.reqs[g]);
    hide Sent, Closable, Answered, SameAsk, InFlight;
    assert queue == [g] + queue[1..];
    forall x | x in s.reqs && x != g ensures ReqOk(h, s', x) { assert ReqOk(h, s, x); }
  }

  lemma {:induction false} PoppedQueues<C, L, S>(s: Server<C, L, S>, s': Server<C, L, S>, exclusive: bool)
    requires QueuesOk(s) && (if exclusive then s.exclQ != [] else s.submitQ != [])
    requires s' == if exclusive then s.(exclQ := s.exclQ[1..]) else s.(submitQ := s.submitQ[1..])
    ensures QueuesOk(s')
    ensures var g := if exclusive then s.exclQ[0] else s.submitQ[0]; g !in s'.submitQ && g !in s'.exclQ
  {
    var queue := if exclusive then s.exclQ else s.submitQ;
    Queued(s, s.submitQ, false);
    Queued(s, s.exclQ, true);
    QueueTail(s, s', queue, exclusive);
    QueueKept(s, s', if exclusive then s.submitQ else s.exclQ, !exclusive);
    assert queue[0] in queue;
  }

  lemma {:induction false} QueueTail<C, L, S>(s: Server<C, L, S>, s': Server<C, L, S>, queue: seq<int>, exclusive: bool)
    requires QueueOk(s, queue, exclusive) && queue != [] && s'.reqs == s.reqs
    ensures QueueOk(s', queue[1..], exclusive) && queue[0] !in queue[1..]
  {
    forall i | 0 <= i < |queue[1..]| ensures Waiting(s', queue[1..][i], exclusive) {
      assert Waiting(s, queue[i + 1], exclusive);
    }
  }

  /** What a submission does to the engine. */
  lemma {:induction false} SubmitMoves<C, L, S>(h: Host<C, L, S>, e: Eng<C, L, S>, prompt: seq<int>, maxNew: nat,
                                                start: S)
    requires EngValid(h, e) && maxNew >= 1
    ensures var e' := Submitted(h, e, prompt, maxNew, start, true); var sid := e.nextSeq;
      && EngValid(h, e') && e'.nextSeq == sid + 1 && e'.aborted == e.aborted && sid !in e.seqs && sid !in e.aborted
      && !InFlight(e.sched, sid)
      && (!WithinContext(h, prompt, maxNew) ==> e' == e.(nextSeq := sid + 1))
      && (WithinContext(h, prompt, maxNew) ==>
            && e'.seqs == e.seqs[sid := NewInfo(prompt, maxNew, start, true)]
            && (forall x :: InFlight(e'.sched, x) <==> InFlight(e.sched, x) || x == sid))
  {
    assert IdsOk(e) && AllTracked(h, e);
    hide EngValid, AllTracked;
    SubmittedValid(h, e, prompt, maxNew, start, true);
    var sid := e.nextSeq;
    if InFlight(e.sched, sid) { InFlightTracked(h, e, sid); }
    AppendIds(e.sched.waiting, Request(sid, |prompt|, maxNew, h.useState, 0, 0, false));
    hide IdSet;
  }

  lemma {:induction false} RefusedValid<C, L, S>(h: Host<C, L, S>, s: Server<C, L, S>, eng: Eng<C, L, S>)
    requires Sound(h, s) && s.submitQ != [] && s.plan == [] && EngineSame(s.eng, eng) && EngValid(h, eng)
    ensures s.submitQ[0] in s.reqs && Sound(h, End(s.(submitQ := s.submitQ[1..], eng := eng), s.submitQ[0], Error))
  {
    hide QueuesOk, EngValid, OwnersOk, ReqsOk, CountOk, EngineSame, MayEnd, CoreBut, AllOpen, InFlight, End;
    var s1, g := s.(eng := eng), s.submitQ[0];
    EngineKept(h, s, s1);
    Popped(h, s1, false);
    var mid := s1.(submitQ := s1.submitQ[1..]);
    assert Ending(h, mid, g) by { ButEnding(h, mid, g); }
    MayFail(h, mid, g);
    EndCore(h, mid, g, Error);
    EndOpen(mid, g, Error);
  }

  lemma ButEnding<C, L, S>(h: Host<C, L, S>, s: Server<C, L, S>, g: int)
    requires CoreBut(h, s, g)
    ensures Ending(h, s, g)
  {
  }

  /** A submitted request is in the scheduler under its new id. */
  ghost predicate Accepted<C, L, S>(s: Server<C, L, S>, s': Server<C, L, S>, g: int, sid: int) {
    && g in s.reqs && sid !in s.owner && sid !in s.eng.seqs && sid !in s'.eng.aborted && s.eng.nextSeq == sid
    && Runnable(s.reqs[g].ask)
    && s' == s.(eng := s'.eng, reqs := s.reqs[g := s.reqs[g].(seqId := Some(sid))], owner := s.owner[sid := g])
    && s'.eng.seqs == s.eng.seqs[sid := NewInfo(s.reqs[g].ask.prompt, s.reqs[g].ask.maxNew, s.reqs[g].ask.start, true)]
    && s'.eng.nextSeq == sid + 1 && s'.eng.aborted == s.eng.aborted
    && forall x :: InFlight(s'.eng.sched, x) <==> InFlight(s.eng.sched, x) || x == sid
  }

  lemma {:induction false} AcceptedValid<C, L, S>(h: Host<C, L, S>, s: Server<C, L, S>, s': Server<C, L, S>, g: int,
                                                  sid: int)
    requires CoreBut(h, s, g) && s.reqs[g].end.None? && s.reqs[g].seqId.None? && Accepted(s, s', g, sid) &&
      EngineOk(h, s')
    requires forall x :: Held(s, x) ==> Open(s, x) && s.owner[x] != g
    ensures Sound(h, s')
  {
    hide QueuesOk, EngineOk, InFlight, OwnersOk, ReqOk, OthersOk, Kept, Closable, NewInfo;
    SameCounts(s, s');
    hide CountOk;
    AcceptedQueues(h, s, s', g, sid);
    AcceptedOwners(s, s', g, sid);
    AcceptedReq(h, s, s', g, sid);
    AcceptedOthers(h, s, s', g, sid);
    forall x | x in s'.reqs ensures ReqOk(h, s', x) { if x != g { OtherOk(h, s', g, x); } }
    forall x | Held(s', x) ensures Open(s', x) { if x != sid { assert Held(s, x) && Open(s, x); } }
  }

  lemma OtherOk<C, L, S>(h: Host<C, L, S>, s: Server<C, L, S>, g: int, x: int)
    requires OthersOk(h, s, g) && x in s.reqs && x != g
    ensures ReqOk(h, s, x)
  {
  }

  lemma {:induction false} AcceptedOwners<C, L, S>(s: Server<C, L, S>, s': Server<C, L, S>, g: int, sid: int)
    requires OwnersOk(s) && Accepted(s, s', g, sid) && s.reqs[g].seqId.None?
    ensures OwnersOk(s')
  {
    hide InFlight;
    forall x | x in s'.eng.seqs ensures HasSink(s', x) { if x != sid { assert HasSink(s, x); } }
    forall x | x in s'.owner ensures Owned(s', x) { if x != sid { assert Owned(s, x); } }
  }

  lemma {:induction false} AcceptedOthers<C, L, S>(h: Host<C, L, S>, s: Server<C, L, S>, s': Server<C, L, S>, g: int,
                                                   sid: int)
    requires OthersOk(h, s, g) && Accepted(s, s', g, sid)
    ensures OthersOk(h, s', g)
  {
    hide InFlight, Sent, Answered, SameAsk, NewInfo;
    forall x | x in s'.reqs && x != g ensures ReqOk(h, s', x) { assert ReqOk(h, s, x); }
  }

  lemma {:induction false} AcceptedQueues<C, L, S>(h: Host<C, L, S>, s: Server<C, L, S>, s': Server<C, L, S>, g: int,
                                                   sid: int)
    requires QueuesOk(s) && g !in s.submitQ && g !in s.exclQ && Accepted(s, s', g, sid)
    ensures QueuesOk(s')
  {
    hide InFlight, NewInfo;
    Queued(s, s.submitQ, false);
    Queued(s, s.exclQ, true);
    QueueKept(s, s', s.submitQ, false);
    QueueKept(s, s', s.exclQ, true);
  }

  lemma {:induction false} AcceptedReq<C, L, S>(h: Host<C, L, S>, s: Server<C, L, S>, s': Server<C, L, S>, g: int,
                                                sid: int)
    requires Ending(h, s, g) && s.reqs[g].end.None? && s.reqs[g].seqId.None? && Accepted(s, s', g, sid)
    ensures ReqOk(h, s', g)
  {
    hide InFlight, SingleShot;
  }

  lemma {:induction false} SubmitDrainedValid<C, L, S>(h: Host<C, L, S>, s: Server<C, L, S>)
    requires Sound(h, s) && s.plan == []
    ensures Sound(h, SubmitDrained(h, s)) && SubmitDrained(h, s).plan == []
  {
    if s.submitQ != [] {
      var g := s.submitQ[0];
      FirstWaits(h, s, false);
      var a := s.reqs[g].ask;
      hide EngValid, Core, InFlight, Submitted, End, AllOpen;
      if !WithinContext(h, a.prompt, a.maxNew) {
        SubmitRefused(h, s);
        EndChanges(s.(submitQ := s.submitQ[1..], eng := Submitted(h, s.eng, a.prompt, a.maxNew, a.start, true)), g,
                   Error);
      } else {
        SubmitAccepted(h, s);
      }
    }
  }

  /** The first request of a queue is known and waits; a batched one has a budget. */
  lemma {:induction false} FirstWaits<C, L, S>(h: Host<C, L, S>, s: Server<C, L, S>, exclusive: bool)
    requires Sound(h, s) && (if exclusive then s.exclQ != [] else s.submitQ != [])
    ensures var g := if exclusive then s.exclQ[0] else s.submitQ[0];
      Waiting(s, g, exclusive) && (!exclusive ==> Runnable(s.reqs[g].ask))
  {
    var g := if exclusive then s.exclQ[0] else s.submitQ[0];
    assert Waiting(s, g, exclusive);
    assert ReqOk(h, s, g);
  }

  lemma {:induction false} SubmitRefused<C, L, S>(h: Host<C, L, S>, s: Server<C, L, S>)
    requires s.plan == [] && s.submitQ != [] && s.submitQ[0] in s.reqs && Runnable(s.reqs[s.submitQ[0]].ask)
    requires var a := s.reqs[s.submitQ[0]].ask; !WithinContext(h, a.prompt, a.maxNew)
    requires Sound(h, s)
    ensures Sound(h, SubmitDrained(h, s))
  {
    var a := s.reqs[s.submitQ[0]].ask;
    hide EngValid, QueuesOk, OwnersOk, ReqsOk, CountOk, InFlight, Submitted, End, NewInfo, AllOpen;
    SubmitMoves(h, s.eng, a.prompt, a.maxNew, a.start);
    RefusedValid(h, s, Submitted(h, s.eng, a.prompt, a.maxNew, a.start, true));
  }

  lemma {:induction false} SubmitAccepted<C, L, S>(h: Host<C, L, S>, s: Server<C, L, S>)
    requires s.plan == [] && s.submitQ != [] && s.submitQ[0] in s.reqs && Runnable(s.reqs[s.submitQ[0]].ask)
    requires var a := s.reqs[s.submitQ[0]].ask; WithinContext(h, a.prompt, a.maxNew)
    requires Sound(h, s)
    ensures Sound(h, SubmitDrained(h, s))
  {
    hide EngValid, QueuesOk, OwnersOk, ReqsOk, CountOk, InFlight, Submitted, NewInfo, AllOpen, OthersOk,
      Ending, Kept, Pending;
    var g, sid := s.submitQ[0], s.eng.nextSeq;
    var a, s' := s.reqs[g].ask, SubmitDrained(h, s);
    var e' := Submitted(h, s.eng, a.prompt, a.maxNew, a.start, true);
    assert s' == s.(submitQ := s.submitQ[1..], eng := e', reqs := s.reqs[g := s.reqs[g].(seqId := Some(sid))],
                    owner := s.owner[sid := g]);
    hide SubmitDrained;
    SubmitMoves(h, s.eng, a.prompt, a.maxNew, a.start);
    NothingPending(e'.sched);
    Popped(h, s, false);
    NewOwner(s);
    hide CoreBut;
    AcceptedValid(h, s.(submitQ := s.submitQ[1..]), s', g, sid);
  }

  lemma NewOwner<C, L, S>(s: Server<C, L, S>)
    requires OwnersOk(s)
    ensures s.eng.nextSeq !in s.owner
  {
    if s.eng.nextSeq in s.owner { OwnedBelow(s, s.eng.nextSeq); }
  }

  lemma OwnedBelow<C, L, S>(s: Server<C, L, S>, sid: int)
    requires OwnersOk(s) && sid in s.owner
    ensures sid < s.eng.nextSeq
  {
    assert Owned(s, sid);
  }

  lemma {:induction false} JobRunValid<C, L, S>(h: Host<C, L, S>, s: Server<C, L, S>, texts: seq<string>,
                                                outcome: JobEnd)
    requires Sound(h, s)
    ensures Sound(h, JobRun(s, texts, outcome)) && JobRun(s, texts, outcome).plan == s.plan
  {
    hide EngineOk, OwnersOk, QueuesOk, ReqsOk, CountOk, AllOpen, End, OthersOk, InFlight, Kept, Closable, MayEnd;
    if s.exclQ != [] {
      var g, mid := s.exclQ[0], s.(exclQ := s.exclQ[1..]);
      Popped(h, s, true);
      var r := s.reqs[g];
      var sent := if r.ask.stream then r.(q := r.q + Texts(texts)) else r;
      var next := mid.(reqs := mid.reqs[g := sent]);
      JobCounts(mid, next, g);
      OthersKept(h, mid, next, g);
      JobEnding(h, mid, next, g, texts);
      var n := if outcome.Returned? then Finish(outcome.reason) else Error;
      hide CoreBut, Ending;
      EndCore(h, next, g, n);
      EndChanges(next, g, n);
      forall sid | Held(next, sid)
        ensures Open(next, sid) && next.owner[sid] != g { assert Held(mid, sid) && Open(mid, sid); }
      EndOpen(next, g, n);
    }
  }

  lemma {:induction false} JobCounts<C, L, S>(s: Server<C, L, S>, s': Server<C, L, S>, g: int)
    requires CountOk(s) && g in s.reqs && g in s'.reqs && s' == s.(reqs := s.reqs[g := s'.reqs[g]])
    requires s'.reqs[g].released == s.reqs[g].released
    ensures CountOk(s')
  {
    SameCounts(s, s');
  }

  lemma {:induction false} JobEnding<C, L, S>(h: Host<C, L, S>, s: Server<C, L, S>, s': Server<C, L, S>, g: int,
                                              texts: seq<string>)
    requires Ending(h, s, g) && s.reqs[g].end.None? && s.reqs[g].ask.Exclusive?
    requires var r := s.reqs[g];
      s' == s.(reqs := s.reqs[g := if r.ask.stream then r.(q := r.q + Texts(texts)) else r])
    ensures Ending(h, s', g)
    ensures forall n :: Terminal(n) ==> MayEnd(h, s', g, n)
  {
    hide SingleShot, InFlight;
  }

  // ---------------------------------------------------------------------------
  // Steps of the engine
  // ---------------------------------------------------------------------------

  lemma {:induction false} BegunValid<C, L, S>(h: Host<C, L, S>, s: Server<C, L, S>)
    requires Sound(h, s)
    ensures 1 <= s.eng.sched.cfg.blockSize && Sound(h, Begun(s))
  {
    StepReady(h, s.eng);
    PumpedIds(s.eng.sched);
    hide QueuesOk, EngValid, OwnersOk, ReqsOk, CountOk, AllOpen, PumpAll, ActionsFor, Pending, InFlight,
      Scheduling.Valid;
    EngineKept(h, s, Begun(s));
  }

  lemma {:induction false} ReapedCore<C, L, S>(h: Host<C, L, S>, s: Server<C, L, S>)
    requires Core(h, s) && s.plan == []
    ensures Core(h, SeqsReaped(s)) && (AllOpen(s) ==> AllOpen(SeqsReaped(s))) && SeqsReaped(s).plan == []
    ensures forall sid :: Held(SeqsReaped(s), sid) <==> Held(s, sid)
  {
    ReapedValid(h, s.eng);
    ReapedSame(s.eng);
    hide QueuesOk, EngValid, OwnersOk, ReqsOk, CountOk, AllOpen, InFlight, Batching.Reaped, EngineSame;
    EngineKept(h, s, SeqsReaped(s));
  }

  lemma {:induction false} ReapedSame<C, L, S>(e: Eng<C, L, S>)
    ensures EngineSame(e, Batching.Reaped(e))
    ensures forall sid :: InFlight(Batching.Reaped(e).sched, sid) <==> InFlight(e.sched, sid)
  {
    hide KeepIds, DropIds, IdSet;
  }

  // ---------------------------------------------------------------------------
  // A failed step
  // ---------------------------------------------------------------------------

  ghost predicate Over<C, L, S>(s: Server<C, L, S>, sid: int) { Known(s, sid) && s.reqs[s.owner[sid]].end.Some? }

  /** A submitted request may fail while its sequence is held, and one that is not held is over. */
  lemma {:induction false} FailReady<C, L, S>(h: Host<C, L, S>, s: Server<C, L, S>, sid: int)
    requires Core(h, s) && sid in s.owner
    ensures Known(s, sid) && CoreBut(h, s, s.owner[sid])
    ensures s.reqs[s.owner[sid]].end.None? ==> MayEnd(h, s, s.owner[sid], Error)
  {
    hide CountOk, EngineOk, InFlight, Sent, Closable, Answered, SameAsk;
    OwnerNotQueued(s, sid);
    var g := s.owner[sid];
    assert ReqOk(h, s, g);
    forall x | x in s.reqs && x != g ensures ReqOk(h, s, x) {}
    if s.reqs[g].end.None? {
      SentClosable(s.reqs[g]);
      MayFail(h, s, g);
    }
  }

  lemma {:induction false} FailSinksCore<C, L, S>(h: Host<C, L, S>, s: Server<C, L, S>, sids: seq<int>)
    requires Core(h, s)
    ensures Core(h, FailSinks(s, sids))
    ensures forall sid :: sid in sids && sid in s.owner ==> Over(FailSinks(s, sids), sid)
    decreases |sids|
  {
    hide Core, CoreBut, MayEnd, End;
    if sids != [] {
      var last := |sids| - 1;
      var before, sid := FailSinks(s, sids[..last]), sids[last];
      FailSinksCore(h, s, sids[..last]);
      assert sids == sids[..last] + [sid];
      if sid in s.owner {
        FailReady(h, before, sid);
        EndCore(h, before, before.owner[sid], Error);
        var after := End(before, before.owner[sid], Error);
        assert FailSinks(s, sids) == after;
        forall x | x in sids && x in s.owner ensures Over(after, x) {
          if x != sid { assert Over(before, x); }
          EndIsOver(before, before.owner[sid], Error, x);
        }
      } else {
        NotKnown(before, sid);
      }
    }
  }

  lemma EndIsOver<C, L, S>(s: Server<C, L, S>, g: int, n: Note, sid: int)
    requires g in s.reqs && Known(s, sid) && (s.owner[sid] == g || Over(s, sid))
    ensures Over(End(s, g, n), sid)
  {
  }

  lemma NotKnown<C, L, S>(s: Server<C, L, S>, sid: int)
    requires sid !in s.owner
    ensures !Known(s, sid)
  {
  }

  lemma {:induction false} AbortAllCore<C, L, S>(h: Host<C, L, S>, s: Server<C, L, S>, sids: seq<int>)
    requires Core(h, s) && s.plan == []
    ensures var s' := AbortAll(s, sids);
      && Core(h, s') && s'.plan == [] && s'.eng.order == s.eng.order
      && (forall sid :: Held(s', sid) ==> Held(s, sid) && sid !in sids)
    decreases |sids|
  {
    hide Core, Held, SeqAborted;
    if sids != [] {
      var last := |sids| - 1;
      AbortAllCore(h, s, sids[..last]);
      var before := AbortAll(s, sids[..last]);
      AbortedCore(h, before, sids[last]);
      assert sids == sids[..last] + [sids[last]];
    }
  }

  /** With nothing held, everything that was finished is reaped. */
  lemma {:induction false} ReapsAll<C, L, S>(h: Host<C, L, S>, s: Server<C, L, S>)
    requires EngineOk(h, s) && OwnersOk(s) && forall sid :: !Held(s, sid)
    ensures SeqsReaped(s).eng.seqs == map[] && SeqsReaped(s).eng.order == []
  {
    assert Listed(s.eng);
    hide EngValid, Pending, InFlight, DropIds, KeepIds;
    var e, gone := s.eng, set id | id in s.eng.seqs && Reapable(s.eng, id);
    forall id | id in e.seqs ensures id in gone { assert HasSink(s, id) && !Held(s, id); }
    if e.seqs == map[] {
      NoneListed(e);
    } else {
      assert gone != {} by { var id :| id in e.seqs; assert id in gone; }
      assert e.seqs - gone == map[];
      ReapedEng(h, e);
      NoneListed(Batching.Reaped(e));
    }
  }

  lemma ReapedEng<C, L, S>(h: Host<C, L, S>, e: Eng<C, L, S>)
    requires EngValid(h, e)
    ensures Listed(Batching.Reaped(e))
  {
    hide Batching.Reaped;
    ReapedValid(h, e);
  }

  lemma NoneListed<C, L, S>(e: Eng<C, L, S>)
    requires Listed(e) && e.seqs == map[]
    ensures e.order == []
  {
    if e.order != [] { OrderKnown(e, e.order[0]); }
  }

  lemma OrderKnown<C, L, S>(e: Eng<C, L, S>, sid: int)
    requires Listed(e) && sid in e.order
    ensures sid in e.seqs
  {
  }

  /** A failed step leaves nothing to step and no record behind. */
  lemma {:induction false} AllFailedValid<C, L, S>(h: Host<C, L, S>, s: Server<C, L, S>)
    requires Sound(h, s)
    ensures var s' := AllFailed(s);
      Sound(h, s') && s'.plan == [] && (forall sid :: !Held(s', sid)) && s'.eng.seqs == map[] && s'.eng.order == []
  {
    hide EngValid, Pending, QueuesOk, OwnersOk, ReqsOk, CountOk, Held, AbortAll, FailSinks, SeqsReaped;
    var start := s.(plan := []);
    PlanDropped(h, s);
    FailSinksCore(h, start, s.eng.order);
    var failed := FailSinks(start, s.eng.order);
    AbortAllCore(h, failed, failed.eng.order);
    var aborted := AbortAll(failed, failed.eng.order);
    forall sid ensures !Held(aborted, sid) {
      if Held(aborted, sid) { HeldListed(h, failed, sid); }
    }
    ReapsAll(h, aborted);
    ReapedCore(h, aborted);
  }

  /** The rest of a plan may be dropped at any time. */
  lemma {:induction false} PlanDropped<C, L, S>(h: Host<C, L, S>, s: Server<C, L, S>)
    requires Core(h, s)
    ensures Core(h, s.(plan := [])) && (AllOpen(s) ==> AllOpen(s.(plan := [])))
  {
    hide EngValid, Pending, QueuesOk, OwnersOk, ReqsOk, CountOk, InFlight;
    NothingPending(s.eng.sched);
    EngineKept(h, s, s.(plan := []));
  }

  lemma {:induction false} HeldListed<C, L, S>(h: Host<C, L, S>, s: Server<C, L, S>, sid: int)
    requires EngineOk(h, s) && OwnersOk(s) && Held(s, sid)
    ensures sid in s.eng.order
  {
    assert Listed(s.eng);
    hide EngValid, Pending, InFlight;
    HeldKnown(h, s, sid);
  }

  // ---------------------------------------------------------------------------
  // Any step
  // ---------------------------------------------------------------------------

  lemma {:induction false} ReadyToStep<C, L, S>(h: Host<C, L, S>, s: Server<C, L, S>)
    requires Sound(h, s)
    ensures 1 <= s.eng.sched.cfg.blockSize
  {
    hide QueuesOk, OwnersOk, ReqsOk, CountOk, Pending;
    EngConfig(h, s.eng);
  }

  /** Every step keeps the invariant, wherever HTTP threads step in. */
  lemma {:induction false} AfterValid<C, L, S>(h: Host<C, L, S>, s: Server<C, L, S>, op: Op<S>)
    requires Sound(h, s)
    ensures 1 <= s.eng.sched.cfg.blockSize && Sound(h, After(h, s, op))
  {
    hide Core, AllOpen, Arrived, GivenUp, AbortDrained, SubmitDrained, JobRun, Begun, ActionRun, AllFailed, SeqsReaped;
    ReadyToStep(h, s);
    if !(BetweenSteps(op) && s.plan != []) {
      match op
      case Arrive(ask) => ArrivedValid(h, s, ask);
      case GiveUp(g) => GivenUpValid(h, s, g);
      case DrainAbort => AbortDrainedValid(h, s);
      case DrainSubmit => SubmitDrainedValid(h, s);
      case RunJob(texts, outcome) => JobRunValid(h, s, texts, outcome);
      case BeginStep => BegunValid(h, s);
      case RunAction => ActionValid(h, s);
      case StepFails => AllFailedValid(h, s);
      case Reap => ReapedCore(h, s);
    }
  }

  // ---------------------------------------------------------------------------
  // One round of the executor
  // ---------------------------------------------------------------------------

  /** What a drain of a whole queue does. */
  function AbortsDrained<C, L, S>(s: Server<C, L, S>): Server<C, L, S>
    decreases |s.abortQ|
  {
    if s.abortQ == [] then s else AbortsDrained(AbortDrained(s))
  }

  /** Everything that readers gave up is aborted, then reaped. */
  function AbortRound<C, L, S>(s: Server<C, L, S>): Server<C, L, S> {
    if s.abortQ == [] then s else SeqsReaped(AbortsDrained(s))
  }

  function SubmitsDrained<C, L, S>(h: Host<C, L, S>, s: Server<C, L, S>): Server<C, L, S>
    decreases |s.submitQ|
  {
    if s.submitQ == [] then s else SubmitsDrained(h, SubmitDrained(h, s))
  }

  /** What a job does when it runs: the texts it streams, and how it ends. */
  type Jobs = int -> (seq<string>, JobEnd)

  function JobsRun<C, L, S>(s: Server<C, L, S>, jobs: Jobs): Server<C, L, S>
    decreases |s.exclQ|
  {
    if s.exclQ == [] then s else JobsRun(JobRun(s, jobs(s.exclQ[0]).0, jobs(s.exclQ[0]).1), jobs)
  }

  /** The first n actions of the plan. */
  function ActionsRun<C, L, S>(h: Host<C, L, S>, s: Server<C, L, S>, n: nat): Server<C, L, S> {
    if n == 0 then s else ActionRun(h, ActionsRun(h, s, n - 1))
  }

  /** Whether a step of the batch raises after some of its actions, and not at its end. */
  predicate Raises(raises: Option<nat>, plan: seq<Action>) { raises.Some? && raises.value < |plan| }

  /** A step of the batch runs its whole plan, or raises after some of its actions and fails the batch. */
  ghost function StepRun<C, L, S>(h: Host<C, L, S>, s: Server<C, L, S>, raises: Option<nat>): Server<C, L, S>
    requires 1 <= s.eng.sched.cfg.blockSize
  {
    var begun := Begun(s);
    if Raises(raises, begun.plan) then AllFailed(ActionsRun(h, begun, raises.value))
    else ActionsRun(h, begun, |begun.plan|)
  }

  /** The drains of one round. */
  function Drained<C, L, S>(h: Host<C, L, S>, s: Server<C, L, S>, jobs: Jobs): Server<C, L, S> {
    JobsRun(SubmitsDrained(h, AbortRound(s)), jobs)
  }

  /** One round of the executor: drains, then a step of the batch while anything is in flight, then reap. */
  ghost predicate Round<C, L, S>(h: Host<C, L, S>, s: Server<C, L, S>, s': Server<C, L, S>, jobs: Jobs,
                                 raises: Option<nat>) {
    var ready := Drained(h, s, jobs);
    if ready.eng.sched.waiting == [] && ready.eng.sched.running == [] then s' == ready
    else 1 <= ready.eng.sched.cfg.blockSize && s' == SeqsReaped(StepRun(h, ready, raises))
  }

  lemma {:induction false} ActionsValid<C, L, S>(h: Host<C, L, S>, s: Server<C, L, S>, n: nat)
    requires Sound(h, s)
    ensures Sound(h, ActionsRun(h, s, n))
  {
    hide Core, AllOpen, ActionRun;
    if n > 0 {
      ActionsValid(h, s, n - 1);
      ActionValid(h, ActionsRun(h, s, n - 1));
    }
  }

  /** What a drain of aborts needs: the queue may be replaced by its tail before the abort. */
  lemma {:induction false} PopAbort<C, L, S>(h: Host<C, L, S>, s: Server<C, L, S>)
    requires Sound(h, s) && s.plan == [] && s.abortQ != []
    ensures Sound(h, s.(abortQ := s.abortQ[1..])) && EngValid(h, s.eng)
    ensures Sound(h, AbortDrained(s)) && AbortDrained(s).plan == []
  {
    AbortQueueIrrelevant(h, s, s.abortQ[1..]);
    AbortDrainedValid(h, s);
    hide AllOpen, CountOk, QueuesOk, OwnersOk, ReqsOk, EngValid, Pending, AbortDrained;
  }

  // ---------------------------------------------------------------------------
  // The facade behind the HTTP server
  // ---------------------------------------------------------------------------

  /** A size below one is replaced. */
  function OrDefault(size: int, default: nat): nat { if size < 1 then default else size }

  const MaxBlocks := 200_000

  class BatchedServing<C, L, S> {
    const limits: Limits
    const engine: BatchedInferenceEngine<C, L, S>
    var inflight: int
    var served: int
    var reqs: map<int, Req<S>>
    var nextReq: int
    var submitQ: seq<int>
    var exclQ: seq<int>
    var abortQ: seq<int>
    var owner: map<int, int>

    /** The state while these actions of the current step are still to run. */
    ghost function StateAt(plan: seq<Action>): Server<C, L, S>
      reads this, engine, engine.sched, engine.sched.coord, engine.sched.coord.kv, engine.sched.coord.state
    {
      Server(limits, inflight, served, reqs, nextReq, submitQ, exclQ, abortQ, engine.View(), owner, plan)
    }

    ghost function State(): Server<C, L, S>
      reads this, engine, engine.sched, engine.sched.coord, engine.sched.coord.kv, engine.sched.coord.state
    {
      StateAt([])
    }

    /** Sizes below one are replaced by the defaults, and the pool is capped. */
    constructor (h: Host<C, L, S>, kvCapacity: int, stateCapacity: int, blockSize: int, chunkSize: int,
                 maxConcurrency: int,
                 maxQueued: int, maxContext: nat)
      ensures engine.h == h && Sound(h, State())
      ensures var slots := OrDefault(maxConcurrency, 1);
        State() == Started(Limits(OrDefault(maxQueued, 1), maxContext),
                           InitialEng(Config(OrDefault(blockSize, 16), OrDefault(chunkSize, 32), slots),
                                      OrDefault(if kvCapacity > MaxBlocks then MaxBlocks else kvCapacity, 1),
                                      OrDefault(stateCapacity, slots)))
    {
      hide Sound, EngValid, InitialEng;
      var slots := OrDefault(maxConcurrency, 1);
      var cfg := Config(OrDefault(blockSize, 16), OrDefault(chunkSize, 32), slots);
      var states := OrDefault(stateCapacity, slots);
      var blocks := OrDefault(if kvCapacity > MaxBlocks then MaxBlocks else kvCapacity, 1);
      limits := Limits(OrDefault(maxQueued, 1), maxContext);
      engine := new BatchedInferenceEngine<C, L, S>(h, blocks, states, cfg.blockSize, cfg.chunkSize, slots);
      inflight, served, nextReq := 0, 0, 0;
      reqs, owner, submitQ, exclQ, abortQ := map[], map[], [], [], [];
      new;
      StartedValid(h, limits, cfg, blocks, states);
    }

    method GiveBack(g: int)
      requires g in reqs
      modifies this`reqs, this`inflight, this`served
      ensures forall plan :: StateAt(plan) == Released(old(StateAt(plan)), g)
    {
      if reqs[g].released { return; }
      reqs := reqs[g := reqs[g].(released := true)];
      inflight := inflight - 1;
      served := served + 1;
    }

    /** The sink's terminal call: the first one wins. */
    method EndReq(g: int, n: Note)
      requires g in reqs
      modifies this`reqs, this`inflight, this`served
      ensures forall plan :: StateAt(plan) == End(old(StateAt(plan)), g, n)
    {
      hide Put;
      if reqs[g].end.Some? { return; }
      reqs := reqs[g := Put(reqs[g], n)];
      reqs := reqs[g := reqs[g].(end := Some(n))];
      GiveBack(g);
    }

    method Hear(g: int, ev: Event)
      requires g in reqs
      modifies this`reqs, this`inflight, this`served
      ensures forall plan :: StateAt(plan) == Heard(old(StateAt(plan)), g, ev)
    {
      hide End;
      match ev
      case Token(id) => reqs := reqs[g := OnToken(reqs[g], id)];
      case Finished(reason) => EndReq(g, Finish(ReasonText(reason)));
      case Failed => EndReq(g, Error);
    }

    /** The sink of a sequence hears the callbacks that the engine has made since `before`. */
    method Tell(sid: int, heard: nat, ghost before: Eng<C, L, S>, ghost plan: seq<Action>)
      requires heard == |Log(before, sid)|
      modifies this`reqs, this`inflight, this`served
      ensures StateAt(plan) == Told(old(StateAt(plan)).(eng := before), engine.View(), sid)
    {
      hide Heard;
      if sid !in owner || owner[sid] !in reqs || sid !in engine.seqs || engine.seqs[sid].sink.None? { return; }
      var g, log := owner[sid], engine.seqs[sid].sink.value;
      if |log| < heard { return; }
      ghost var start := StateAt(plan);
      var evs := log[heard..];
      for i := 0 to |evs|
        invariant g in reqs && StateAt(plan) == Delivered(start, g, evs[..i])
      {
        assert evs[..i + 1][..i] == evs[..i];
        Hear(g, evs[i]);
      }
      assert evs[..|evs|] == evs;
      assert NewEvents(before, engine.View(), sid) == evs;
    }

    /** A batched request must generate something, stay within the context, and fit the whole block pool. */
    method Precheck(ask: Ask<S>) returns (ok: bool)
      requires 1 <= State().eng.sched.cfg.blockSize
      ensures ok == Acceptable(State(), ask)
    {
      if ask.Exclusive? { return true; }
      if ask.maxNew < 1 { return false; }
      if limits.maxContext > 0 && |ask.prompt| + ask.maxNew > limits.maxContext { return false; }
      var worst := BlocksFor(|ask.prompt| + ask.maxNew, engine.sched.cfg.blockSize);
      ok := worst <= engine.sched.coord.kv.capacity;
    }

    /** A new request: refused when it cannot run, or when the limit is reached. */
    method Arrive(ask: Ask<S>) returns (r: Result<int, Refusal>)
      requires Sound(engine.h, State())
      modifies this
      ensures 1 <= old(State()).eng.sched.cfg.blockSize
      ensures Sound(engine.h, State()) && State() == Arrived(old(State()), ask)
      ensures r == if !Acceptable(old(State()), ask) then Err(Invalid)
                   else if old(inflight) == limits.maxQueued then Err(Saturated) else Ok(old(nextReq))
    {
      hide Sound, Acceptable;
      ReadyToStep(engine.h, State());
      ArrivedValid(engine.h, State(), ask);
      AtMostLimit(engine.h, State());
      var ok := Precheck(ask);
      if !ok { return Err(Invalid); }
      if inflight >= limits.maxQueued { return Err(Saturated); }
      inflight := inflight + 1;
      var g := nextReq;
      reqs, nextReq := reqs[g := NewReq(ask)], g + 1;
      if ask.Batched? { submitQ := submitQ + [g]; } else { exclQ := exclQ + [g]; }
      r := Ok(g);
    }

    /** The reader stops waiting. */
    method GiveUp(g: int)
      requires Sound(engine.h, State())
      modifies this
      ensures Sound(engine.h, State()) && State() == GivenUp(old(State()), g)
    {
      GivenUpValid(engine.h, State(), g);
      hide Sound, Released;
      if g !in reqs || reqs[g].end.Some? { return; }
      if reqs[g].seqId.Some? { abortQ := abortQ + [reqs[g].seqId.value]; }
      GiveBack(g);
    }

    method Abort(sid: int)
      requires EngValid(engine.h, engine.View())
      modifies this, engine, engine.sched, engine.sched.coord, engine.sched.coord.kv, engine.sched.coord.state
      ensures State() == SeqAborted(old(State()), sid)
      ensures submitQ == old(submitQ) && exclQ == old(exclQ) && abortQ == old(abortQ)
    {
      hide EngValid, Cancelled, Told;
      ghost var before := State();
      var heard := if sid in engine.seqs && engine.seqs[sid].sink.Some? then |engine.seqs[sid].sink.value| else 0;
      var _ := engine.Abort(sid);
      assert StateAt([]).(eng := before.eng) == before;
      Tell(sid, heard, before.eng, []);
    }

    method ReapDone()
      requires EngValid(engine.h, engine.View())
      modifies this, engine, engine.sched, engine.sched.coord, engine.sched.coord.kv, engine.sched.coord.state
      ensures State() == SeqsReaped(old(State()))
      ensures submitQ == old(submitQ) && exclQ == old(exclQ) && abortQ == old(abortQ)
    {
      hide EngValid, Batching.Reaped;
      var _ := engine.Reap();
    }

    /** Abort everything that readers gave up, then reap. */
    method DrainAborts() returns (got: bool)
      requires Sound(engine.h, State())
      modifies this, engine, engine.sched, engine.sched.coord, engine.sched.coord.kv, engine.sched.coord.state
      ensures Sound(engine.h, State()) && State() == AbortRound(old(State())) && got == (old(abortQ) != [])
    {
      hide Sound, SeqAborted, SeqsReaped, EngValid;
      ghost var all := AbortsDrained(State());
      got := false;
      while abortQ != []
        invariant Sound(engine.h, State()) && AbortsDrained(State()) == all
        invariant if got then old(abortQ) != [] else State() == old(State())
        decreases |abortQ|
      {
        PopAbort(engine.h, State());
        var sid := abortQ[0];
        abortQ := abortQ[1..];
        Abort(sid);
        got := true;
      }
      if got {
        ReapSound(engine.h, State());
        ReapDone();
      }
    }

    /** Hand every waiting request to the engine; one that it refuses fails at once. */
    method DrainSubmits() returns (got: bool)
      requires Sound(engine.h, State())
      modifies this, engine, engine.sched, engine.sched.coord, engine.sched.coord.kv, engine.sched.coord.state
      ensures Sound(engine.h, State()) && submitQ == [] && State() == SubmitsDrained(engine.h, old(State()))
      ensures got == (old(submitQ) != [])
    {
      hide Sound, SubmitDrained;
      ghost var all := SubmitsDrained(engine.h, State());
      got := false;
      while submitQ != []
        invariant Sound(engine.h, State()) && SubmitsDrained(engine.h, State()) == all
        invariant if got then old(submitQ) != [] else submitQ == old(submitQ)
        decreases |submitQ|
      {
        SubmitDrainedValid(engine.h, State());
        SubmitOne();
        got := true;
      }
    }

    method SubmitOne()
      requires Sound(engine.h, State()) && submitQ != []
      modifies this, engine, engine.sched, engine.sched.coord, engine.sched.coord.kv, engine.sched.coord.state
      ensures State() == SubmitDrained(engine.h, old(State()))
    {
      hide Sound, EngValid, Submitted, End;
      SubmitReady(engine.h, State());
      var g := submitQ[0];
      submitQ := submitQ[1..];
      var sid := engine.Submit(reqs[g].ask.prompt, reqs[g].ask.maxNew, reqs[g].ask.start, true);
      if sid.Ok? {
        reqs := reqs[g := reqs[g].(seqId := Some(sid.value))];
        owner := owner[sid.value := g];
      } else {
        EndReq(g, Error);
      }
    }

    /** Run every exclusive job to its end. */
    method DrainExclusive(jobs: Jobs) returns (got: bool)
      requires Sound(engine.h, State())
      modifies this
      ensures Sound(engine.h, State()) && exclQ == [] && State() == JobsRun(old(State()), jobs)
      ensures got == (old(exclQ) != [])
    {
      hide Sound, JobRun;
      ghost var all := JobsRun(State(), jobs);
      got := false;
      while exclQ != []
        invariant Sound(engine.h, State()) && JobsRun(State(), jobs) == all
        invariant if got then old(exclQ) != [] else exclQ == old(exclQ)
        decreases |exclQ|
      {
        var (texts, outcome) := jobs(exclQ[0]);
        JobRunValid(engine.h, State(), texts, outcome);
        RunOne(texts, outcome);
        got := true;
      }
    }

    method RunOne(texts: seq<string>, outcome: JobEnd)
      requires exclQ != []
      modifies this
      ensures State() == JobRun(old(State()), texts, outcome)
    {
      hide End;
      var g := exclQ[0];
      exclQ := exclQ[1..];
      if g !in reqs { return; }
      reqs := reqs[g := if reqs[g].ask.stream then reqs[g].(q := reqs[g].q + Texts(texts)) else reqs[g]];
      EndReq(g, if outcome.Returned? then Finish(outcome.reason) else Error);
    }

    /** The engine runs one action, and its callbacks reach the request. */
    method RunOneAction(a: Action, ghost rest: seq<Action>)
      requires Sound(engine.h, StateAt([a] + rest))
      modifies this, engine, engine.sched, engine.sched.coord, engine.sched.coord.kv, engine.sched.coord.state
      ensures StateAt(rest) == ActionRun(engine.h, old(StateAt([a] + rest)))
    {
      hide Sound, Executed, Told, CoordValid, IdSet;
      ghost var before := StateAt([a] + rest);
      assert ([a] + rest)[0] == a && ([a] + rest)[1..] == rest;
      ActionReady(engine.h, before, a, rest);
      var heard := if engine.seqs[a.seqId].sink.Some? then |engine.seqs[a.seqId].sink.value| else 0;
      engine.Execute(a);
      assert StateAt(rest).(eng := before.eng) == before.(plan := rest);
      Tell(a.seqId, heard, before.eng, rest);
    }

    /** One engine step: all of its actions, or those before it raises. */
    method StepBatch(raises: Option<nat>) returns (failed: bool)
      requires Sound(engine.h, State())
      modifies this, engine, engine.sched, engine.sched.coord, engine.sched.coord.kv, engine.sched.coord.state
      ensures 1 <= old(State()).eng.sched.cfg.blockSize && Sound(engine.h, State())
      ensures var begun := Begun(old(State()));
        && failed == Raises(raises, begun.plan)
        && State() == (if failed then ActionsRun(engine.h, begun, raises.value).(plan := [])
                       else ActionsRun(engine.h, begun, |begun.plan|))
    {
      hide Core, AllOpen, EngValid, ActionRun, ActionsFor, Planned, Pending;
      BegunReady(engine.h, State());
      ghost var begun := Begun(State());
      var actions := engine.Plan();
      assert StateAt(actions) == begun;
      for i := 0 to |actions|
        invariant Sound(engine.h, StateAt(actions[i..])) && StateAt(actions[i..]) == ActionsRun(engine.h, begun, i)
        invariant raises.Some? ==> i <= raises.value
      {
        if raises == Some(i) {
          PlanDropped(engine.h, StateAt(actions[i..]));
          return true;
        }
        assert [actions[i]] + actions[i + 1..] == actions[i..];
        ActionValid(engine.h, StateAt(actions[i..]));
        RunOneAction(actions[i], actions[i + 1..]);
      }
      assert actions[|actions|..] == [];
      failed := false;
    }

    method FailEach(sids: seq<int>)
      modifies this`reqs, this`inflight, this`served
      ensures State() == FailSinks(old(State()), sids)
    {
      hide End;
      ghost var start := State();
      for i := 0 to |sids|
        invariant State() == FailSinks(start, sids[..i])
      {
        assert sids[..i + 1][..i] == sids[..i];
        if sids[i] in owner && owner[sids[i]] in reqs { EndReq(owner[sids[i]], Error); }
      }
      assert sids[..|sids|] == sids;
    }

    method AbortEach(sids: seq<int>)
      requires Core(engine.h, State())
      modifies this, engine, engine.sched, engine.sched.coord, engine.sched.coord.kv, engine.sched.coord.state
      ensures State() == AbortAll(old(State()), sids)
    {
      hide SeqAborted, Core;
      ghost var start := State();
      for i := 0 to |sids|
        invariant State() == AbortAll(start, sids[..i]) && Core(engine.h, State())
      {
        assert sids[..i + 1][..i] == sids[..i];
        CoreEngine(engine.h, State());
        AbortedCore(engine.h, State(), sids[i]);
        Abort(sids[i]);
      }
      assert sids[..|sids|] == sids;
    }

    /** A failed step: fail every sink, abort every sequence, reap; nothing is left to step. */
    method FailAllBatched()
      requires Sound(engine.h, State())
      modifies this, engine, engine.sched, engine.sched.coord, engine.sched.coord.kv, engine.sched.coord.state
      ensures Sound(engine.h, State()) && State() == AllFailed(old(State()))
      ensures (forall sid :: !Held(State(), sid)) && engine.seqs == map[] && engine.order == []
    {
      hide Sound, Core, FailSinks, AbortAll, SeqsReaped, InFlight, EngValid;
      ghost var start := State();
      AllFailedValid(engine.h, start);
      FailStages(engine.h, start);
      var sids := engine.order;
      FailEach(sids);
      AbortEach(sids);
      CoreEngine(engine.h, State());
      ReapDone();
    }

    /** One turn of the executor's loop. */
    method Loop(jobs: Jobs, raises: Option<nat>) returns (got: bool)
      requires Sound(engine.h, State())
      modifies this, engine, engine.sched, engine.sched.coord, engine.sched.coord.kv, engine.sched.coord.state
      ensures Sound(engine.h, State()) && Round(engine.h, old(State()), State(), jobs, raises)
    {
      hide Sound, Core, AbortRound, SubmitsDrained, JobsRun, Begun, ActionsRun, AllFailed, SeqsReaped, EngValid;
      var _ := DrainAborts();
      var submitted := DrainSubmits();
      var ran := DrainExclusive(jobs);
      got := submitted || ran;
      if engine.sched.waiting != [] || engine.sched.running != [] {
        ghost var ready := State();
        var failed := StepBatch(raises);
        if failed {
          FailedAnyPlan(ActionsRun(engine.h, Begun(ready), raises.value));
          FailAllBatched();
        }
        ReapSound(engine.h, State());
        ReapDone();
        got := true;
      }
    }
  }

  lemma ReapSound<C, L, S>(h: Host<C, L, S>, s: Server<C, L, S>)
    requires Sound(h, s) && s.plan == []
    ensures EngValid(h, s.eng) && Sound(h, SeqsReaped(s)) && SeqsReaped(s).plan == []
  {
    hide CountOk, QueuesOk, OwnersOk, ReqsOk, AllOpen, SeqsReaped, EngValid, Pending;
    ReapedCore(h, s);
  }

  lemma CoreEngine<C, L, S>(h: Host<C, L, S>, s: Server<C, L, S>)
    requires Core(h, s)
    ensures EngValid(h, s.eng)
  {
    hide CountOk, QueuesOk, OwnersOk, ReqsOk, EngValid, Pending;
  }

  lemma SubmitReady<C, L, S>(h: Host<C, L, S>, s: Server<C, L, S>)
    requires Sound(h, s) && s.submitQ != []
    ensures EngValid(h, s.eng) && s.submitQ[0] in s.reqs && Runnable(s.reqs[s.submitQ[0]].ask)
  {
    hide CountOk, QueuesOk, OwnersOk, ReqsOk, AllOpen, EngValid, Pending;
    FirstWaits(h, s, false);
  }

  lemma ActionReady<C, L, S>(h: Host<C, L, S>, s: Server<C, L, S>, a: Action, rest: seq<Action>)
    requires Sound(h, s) && s.plan == [a] + rest
    ensures CoordValid(s.eng.sched.coord) && a.seqId in s.eng.seqs && a.seqId in IdSet(s.eng.sched.running)
  {
    hide CountOk, QueuesOk, OwnersOk, ReqsOk, AllOpen, EngValid, Pending, CoordValid, IdSet;
    ExecuteReady(h, s.eng, a, rest);
  }

  lemma BegunReady<C, L, S>(h: Host<C, L, S>, s: Server<C, L, S>)
    requires Sound(h, s)
    ensures 1 <= s.eng.sched.cfg.blockSize && Sound(h, Begun(s)) && EngValid(h, s.eng)
  {
    hide CountOk, QueuesOk, OwnersOk, ReqsOk, AllOpen, EngValid, Pending, Begun;
    BegunValid(h, s);
  }

  /** What the loops of a failed step need in between. */
  lemma {:induction false} FailStages<C, L, S>(h: Host<C, L, S>, s: Server<C, L, S>)
    requires Sound(h, s) && s.plan == []
    ensures var failed := FailSinks(s, s.eng.order);
      Core(h, failed) && Core(h, AbortAll(failed, s.eng.order)) && failed.plan == [] &&
        AbortAll(failed, s.eng.order).plan == []
  {
    hide Core, AllOpen, FailSinks, AbortAll;
    FailSinksCore(h, s, s.eng.order);
    AbortAllCore(h, FailSinks(s, s.eng.order), s.eng.order);
  }

  lemma FailedAnyPlan<C, L, S>(s: Server<C, L, S>)
    ensures AllFailed(s.(plan := [])) == AllFailed(s)
  {
  }

  datatype Refusal = Invalid | Saturated

  lemma AtMostLimit<C, L, S>(h: Host<C, L, S>, s: Server<C, L, S>)
    requires Sound(h, s)
    ensures s.inflight <= s.limits.maxQueued
  {
    hide QueuesOk, EngineOk, OwnersOk, ReqsOk, AllOpen;
  }
}
