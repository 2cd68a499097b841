/** The continuous-batching scheduler: admission with backfill, chunked prefill,
    decode, finish and abort, on top of the block coordinator. */
module Scheduling {
  // `running` is a dictionary iterated in insertion order: a sequence of requests
  // with distinct ids. Each method is proved against a transition on `Sched` values.
  import opened Prelude
  import opened Blocks
  import Modular

  datatype Request = Request(seqId: int, promptLen: nat, maxNew: nat, useState: bool,
                             position: nat, generated: nat, finished: bool)

  datatype Phase = Prefill | Decode

  datatype Action = Action(seqId: int, phase: Phase, fromTok: nat, toTok: nat, length: nat)

  datatype Config = Config(blockSize: nat, chunkSize: nat, maxConcurrency: nat)

  datatype Sched = Sched(cfg: Config, coord: Coord, waiting: seq<Request>, running: seq<Request>, done: seq<Request>)

  // ---------------------------------------------------------------------------
  // Queues of requests
  // ---------------------------------------------------------------------------

  function IdSet(rs: seq<Request>): set<int> { set r | r in rs :: r.seqId }

  ghost predicate DistinctIds(rs: seq<Request>) {
    forall i, j :: 0 <= i < j < |rs| ==> rs[i].seqId != rs[j].seqId
  }

  function Lookup(rs: seq<Request>, seqId: int): (r: Option<Request>)
    ensures r.Some? ==> r.value in rs && r.value.seqId == seqId
    ensures r == None <==> seqId !in IdSet(rs)
  {
    if rs == [] then None else if rs[0].seqId == seqId then Some(rs[0]) else Lookup(rs[1..], seqId)
  }

  function Without(rs: seq<Request>, seqId: int): (out: seq<Request>)
    ensures forall r :: r in out <==> r in rs && r.seqId != seqId
    ensures DistinctIds(rs) ==> DistinctIds(out)
  {
    if rs == [] then []
    else if rs[0].seqId == seqId then Without(rs[1..], seqId)
    else [rs[0]] + Without(rs[1..], seqId)
  }

  function Replace(rs: seq<Request>, r: Request): (out: seq<Request>)
    ensures |out| == |rs|
    ensures forall i :: 0 <= i < |rs| ==> out[i] == if rs[i].seqId == r.seqId then r else rs[i]
  {
    seq(|rs|, i requires 0 <= i < |rs| => if rs[i].seqId == r.seqId then r else rs[i])
  }

  lemma UniqueById(rs: seq<Request>, a: Request, b: Request)
    requires DistinctIds(rs) && a in rs && b in rs && a.seqId == b.seqId
    ensures a == b
  {
  }

  lemma {:induction false} WithoutShrinks(rs: seq<Request>, r: Request)
    requires DistinctIds(rs) && r in rs
    ensures |Without(rs, r.seqId)| == |rs| - 1
  {
    if rs[0].seqId == r.seqId {
      WithoutAbsent(rs[1..], r.seqId);
    } else {
      WithoutShrinks(rs[1..], r);
    }
  }

  lemma {:induction false} WithoutAbsent(rs: seq<Request>, seqId: int)
    requires forall r :: r in rs ==> r.seqId != seqId
    ensures Without(rs, seqId) == rs
  {
    if rs != [] { WithoutAbsent(rs[1..], seqId); }
  }

  // ---------------------------------------------------------------------------
  // Transitions
  // ---------------------------------------------------------------------------

  function Worst(cfg: Config, r: Request): nat
    requires 1 <= cfg.blockSize
  {
    BlocksFor(r.promptLen + r.maxNew, cfg.blockSize)
  }

  ghost predicate Accepts(cfg: Config, coord: Coord, running: seq<Request>, r: Request)
    requires 1 <= cfg.blockSize
  {
    && |running| < cfg.maxConcurrency
    && (r.useState ==> coord.st.free != {})
    && |coord.kv.free| >= Worst(cfg, r)
  }

  datatype Pumped = Pumped(coord: Coord, running: seq<Request>, kept: seq<Request>, admitted: seq<int>)

  /** Walk the queue from its head, admitting what fits and keeping the rest in order. */
  ghost function PumpFrom(cfg: Config, coord: Coord, running: seq<Request>, queue: seq<Request>): Pumped
    requires 1 <= cfg.blockSize
    decreases |queue|
  {
    if queue == [] then Pumped(coord, running, [], [])
    else
      var r := queue[0];
      if Accepts(cfg, coord, running, r) then
        var p := PumpFrom(cfg, Register(coord, r.seqId, Worst(cfg, r), r.useState), running + [r], queue[1..]);
        p.(admitted := [r.seqId] + p.admitted)
      else
        var p := PumpFrom(cfg, coord, running, queue[1..]);
        p.(kept := [r] + p.kept)
  }

  ghost function PumpAll(s: Sched): Sched
    requires 1 <= s.cfg.blockSize
  {
    var p := PumpFrom(s.cfg, s.coord, s.running, s.waiting);
    s.(coord := p.coord, running := p.running, waiting := p.kept)
  }

  function ActionFor(cfg: Config, r: Request): Action {
    if r.position < r.promptLen then
      var left := r.promptLen - r.position;
      var n := if cfg.chunkSize < left then cfg.chunkSize else left;
      Action(r.seqId, Prefill, r.position, r.position + n, n)
    else Action(r.seqId, Decode, 0, 0, 1)
  }

  function ActionsFor(cfg: Config, rs: seq<Request>): seq<Action> {
    if rs == [] then []
    else if rs[0].finished then ActionsFor(cfg, rs[1..])
    else [ActionFor(cfg, rs[0])] + ActionsFor(cfg, rs[1..])
  }

  /** The request after its action ran. */
  function Moved(r: Request, a: Action): Request {
    if a.phase == Prefill then
      r.(position := if r.position + a.length < r.promptLen then r.position + a.length else r.promptLen)
    else
      r.(generated := r.generated + (if a.length > 0 then a.length else 1), position := r.promptLen)
  }

  predicate Finishes(r: Request, eos: bool) {
    eos || (r.position >= r.promptLen && r.generated >= r.maxNew)
  }

  function Finish(s: Sched, r: Request): Sched {
    s.(coord := if r.seqId in s.coord.tables then Release(s.coord, r.seqId) else s.coord,
       running := Without(s.running, r.seqId), done := s.done + [r.(finished := true)])
  }

  function Advanced(s: Sched, a: Action, eos: bool): Sched
    requires a.seqId in IdSet(s.running)
  {
    var r := Moved(Lookup(s.running, a.seqId).value, a);
    if Finishes(r, eos) then Finish(s, r) else s.(running := Replace(s.running, r))
  }

  function Aborted(s: Sched, seqId: int): Sched {
    match Lookup(s.running, seqId)
    case Some(r) => Finish(s, r)
    case None =>
      match Lookup(s.waiting, seqId)
      case Some(r) => s.(waiting := Without(s.waiting, seqId), done := s.done + [r.(finished := true)])
      case None => s
  }

  function Added(s: Sched, seqId: int, promptLen: nat, maxNew: nat, useState: bool): Sched {
    s.(waiting := s.waiting + [Request(seqId, promptLen, maxNew, useState, 0, 0, false)])
  }

  // ---------------------------------------------------------------------------
  // The invariant of every reachable state
  // ---------------------------------------------------------------------------

  /** The reservation is the worst case, and a decode only follows a whole prompt. */
  ghost predicate RunningOk(cfg: Config, tables: map<int, Table>, r: Request)
    requires 1 <= cfg.blockSize
  {
    && !r.finished && r.position <= r.promptLen && r.generated <= r.maxNew
    && (r.position < r.promptLen ==> r.generated == 0)
    && (r.position == r.promptLen && r.promptLen + r.maxNew > 0 ==> r.generated < r.maxNew)
    && r.seqId in tables
    && |tables[r.seqId].blocks| == Worst(cfg, r)
    && (tables[r.seqId].slot.Some? <==> r.useState)
  }

  ghost predicate WaitingOk(r: Request) {
    !r.finished && r.position == 0 && r.generated == 0
  }

  ghost predicate ConfigOk(cfg: Config) {
    1 <= cfg.blockSize && 1 <= cfg.chunkSize && 1 <= cfg.maxConcurrency
  }

  ghost predicate Valid(s: Sched) {
    && ConfigOk(s.cfg)
    && CoordValid(s.coord)
    && RunningValid(s.cfg, s.coord.tables, s.running)
    && (forall r :: r in s.waiting ==> WaitingOk(r))
    && DistinctIds(s.waiting)
    && IdSet(s.waiting) !! IdSet(s.running)
    && |s.running| <= s.cfg.maxConcurrency
  }

  ghost predicate RunningValid(cfg: Config, tables: map<int, Table>, running: seq<Request>)
    requires 1 <= cfg.blockSize
  {
    && DistinctIds(running)
    && IdSet(running) == tables.Keys
    && forall r :: r in running ==> RunningOk(cfg, tables, r)
  }

  function Initial(cfg: Config, kvCapacity: nat, stateCapacity: nat): Sched {
    Sched(cfg, EmptyCoord(kvCapacity, stateCapacity), [], [], [])
  }

  lemma InitialValid(cfg: Config, kvCapacity: nat, stateCapacity: nat)
    requires ConfigOk(cfg)
    ensures Valid(Initial(cfg, kvCapacity, stateCapacity))
  {
  }

  lemma AddedValid(s: Sched, seqId: int, promptLen: nat, maxNew: nat, useState: bool)
    requires Valid(s) && seqId !in IdSet(s.waiting) && seqId !in IdSet(s.running)
    ensures Valid(Added(s, seqId, promptLen, maxNew, useState))
  {
    var r := Request(seqId, promptLen, maxNew, useState, 0, 0, false);
    var w := s.waiting + [r];
    hide CoordValid, RunningValid;
    forall i, j | 0 <= i < j < |w| ensures w[i].seqId != w[j].seqId {
      assert w[i] in s.waiting;
    }
  }

  lemma AppendRunning(cfg: Config, tables: map<int, Table>, running: seq<Request>, r: Request, t: Table)
    requires ConfigOk(cfg) && RunningValid(cfg, tables, running) && WaitingOk(r) && r.seqId !in tables
    requires |t.blocks| == Worst(cfg, r) && (t.slot.Some? <==> r.useState)
    ensures RunningValid(cfg, tables[r.seqId := t], running + [r])
  {
    hide Worst;
    var rs, tables' := running + [r], tables[r.seqId := t];
    assert IdSet(rs) == IdSet(running) + {r.seqId};
    forall x | x in rs ensures RunningOk(cfg, tables', x) {
      if x in running { assert RunningOk(cfg, tables, x); }
    }
    forall i, j | 0 <= i < j < |rs| ensures rs[i].seqId != rs[j].seqId {
      assert rs[i] in running;
    }
  }

  /** Admitting one accepted request: the coordinator never overflows, and the invariant survives. */
  lemma AdmitRunning(cfg: Config, coord: Coord, running: seq<Request>, r: Request)
    requires ConfigOk(cfg) && CoordValid(coord) && RunningValid(cfg, coord.tables, running)
    requires Accepts(cfg, coord, running, r) && WaitingOk(r) && r.seqId !in IdSet(running)
    ensures CanHost(coord, Worst(cfg, r), r.useState) && r.seqId !in coord.tables
    ensures var c := Register(coord, r.seqId, Worst(cfg, r), r.useState);
      CoordValid(c) && RunningValid(cfg, c.tables, running + [r]) && Shrunk(coord, c)
  {
    RegisterValid(coord, r.seqId, Worst(cfg, r), r.useState);
    RegisterShrinks(coord, r.seqId, Worst(cfg, r), r.useState);
    var c := Register(coord, r.seqId, Worst(cfg, r), r.useState);
    hide CoordValid, Take, Lowest, Worst, RunningValid, WaitingOk;
    AppendRunning(cfg, coord.tables, running, r, c.tables[r.seqId]);
  }

  /** kept and taken are the queue, split in order. */
  ghost predicate Splits(queue: seq<Request>, kept: seq<Request>, taken: seq<Request>)
    decreases |queue|
  {
    if queue == [] then kept == [] && taken == []
    else
      || (kept != [] && kept[0] == queue[0] && Splits(queue[1..], kept[1..], taken))
      || (taken != [] && taken[0] == queue[0] && Splits(queue[1..], kept, taken[1..]))
  }

  /** Resources only shrink while the queue is walked. */
  ghost predicate Shrunk(before: Coord, after: Coord) {
    |after.kv.free| <= |before.kv.free| && after.st.free <= before.st.free
  }

  lemma RegisterShrinks(c: Coord, s: int, blocks: nat, useState: bool)
    requires CoordValid(c) && CanHost(c, blocks, useState)
    ensures Shrunk(c, Register(c, s, blocks, useState))
  {
    TakeValid(c.kv, s, blocks);
    if useState { TakeOne(c.st, s); }
    hide Take;
  }

  /** pump: what is kept keeps its order, and nothing that is kept could still be admitted. */
  ghost predicate PumpOk(cfg: Config, coord: Coord, running: seq<Request>, queue: seq<Request>, p: Pumped)
    requires ConfigOk(cfg)
  {
    && CoordValid(p.coord) && RunningValid(cfg, p.coord.tables, p.running)
    && running <= p.running
    && Splits(queue, p.kept, p.running[|running|..])
    && Shrunk(coord, p.coord)
    && (forall r :: r in p.kept ==> !Accepts(cfg, p.coord, p.running, r))
    && (|running| <= cfg.maxConcurrency ==> |p.running| <= cfg.maxConcurrency)
  }

  lemma PumpTakes(cfg: Config, coord: Coord, c: Coord, running: seq<Request>, r: Request, rest: seq<Request>, p: Pumped)
    requires ConfigOk(cfg) && Shrunk(coord, c) && PumpOk(cfg, c, running + [r], rest, p) &&
      |running| < cfg.maxConcurrency
    ensures PumpOk(cfg, coord, running, [r] + rest, Joined([r.seqId], [], p))
  {
    hide CoordValid, RunningValid, Worst;
    assert p.running[|running|..] == [r] + p.running[|running| + 1..];
    assert ([r] + rest)[1..] == rest && [] + p.kept == p.kept;
    assert p.running[|running|..][1..] == p.running[|running + [r]|..];
  }

  lemma PumpKeeps(cfg: Config, coord: Coord, running: seq<Request>, r: Request, rest: seq<Request>, p: Pumped)
    requires ConfigOk(cfg) && PumpOk(cfg, coord, running, rest, p) && !Accepts(cfg, coord, running, r)
    ensures PumpOk(cfg, coord, running, [r] + rest, Joined([], [r], p))
  {
    assert !Accepts(cfg, p.coord, p.running, r);
    hide CoordValid, RunningValid, Worst, Shrunk;
    assert ([r] + rest)[1..] == rest && ([r] + p.kept)[1..] == p.kept;
  }

  lemma {:induction false} PumpFromValid(cfg: Config, coord: Coord, running: seq<Request>, queue: seq<Request>)
    requires PumpReady(cfg, coord, running, queue)
    ensures ConfigOk(cfg) && PumpOk(cfg, coord, running, queue, PumpFrom(cfg, coord, running, queue))
    decreases |queue|
  {
    if queue == [] {
      PumpDone(cfg, coord, running);
    } else {
      hide PumpReady, Register, Worst, Accepts, PumpOk, PumpFrom;
      var r, rest := queue[0], queue[1..];
      PumpStep(cfg, coord, running, queue);
      PumpUnfold(cfg, coord, running, queue);
      assert [r] + rest == queue;
      if Accepts(cfg, coord, running, r) {
        AcceptsRoom(cfg, coord, running, r);
        var c := Register(coord, r.seqId, Worst(cfg, r), r.useState);
        RegisterShrinks(coord, r.seqId, Worst(cfg, r), r.useState);
        PumpFromValid(cfg, c, running + [r], rest);
        PumpTakes(cfg, coord, c, running, r, rest, PumpFrom(cfg, c, running + [r], rest));
      } else {
        PumpFromValid(cfg, coord, running, rest);
        PumpKeeps(cfg, coord, running, r, rest, PumpFrom(cfg, coord, running, rest));
      }
    }
  }

  lemma HeadId(queue: seq<Request>)
    requires queue != [] && DistinctIds(queue)
    ensures queue[0].seqId in IdSet(queue) && IdSet(queue[1..]) <= IdSet(queue) && queue[0].seqId !in IdSet(queue[1..])
    ensures DistinctIds(queue[1..])
  {
  }

  lemma AcceptsRoom(cfg: Config, coord: Coord, running: seq<Request>, r: Request)
    requires ConfigOk(cfg) && Accepts(cfg, coord, running, r)
    ensures |running| < cfg.maxConcurrency
  {
  }

  lemma {:induction false} SplitsFacts(queue: seq<Request>, kept: seq<Request>, taken: seq<Request>)
    requires Splits(queue, kept, taken)
    ensures forall r :: r in queue <==> r in kept || r in taken
    ensures DistinctIds(queue) ==> DistinctIds(kept) && IdSet(kept) !! IdSet(taken)
    decreases |queue|
  {
    if queue != [] {
      if kept != [] && kept[0] == queue[0] && Splits(queue[1..], kept[1..], taken) {
        SplitsFacts(queue[1..], kept[1..], taken);
        assert kept == [queue[0]] + kept[1..];
      } else {
        SplitsFacts(queue[1..], kept, taken[1..]);
        assert taken == [queue[0]] + taken[1..];
      }
      assert queue == [queue[0]] + queue[1..];
      if DistinctIds(queue) { HeadId(queue); }
    }
  }

  lemma PumpAllValid(s: Sched)
    requires Valid(s)
    ensures Valid(PumpAll(s))
    ensures PumpOk(s.cfg, s.coord, s.running, s.waiting, PumpFrom(s.cfg, s.coord, s.running, s.waiting))
  {
    var p := PumpFrom(s.cfg, s.coord, s.running, s.waiting);
    PumpFromValid(s.cfg, s.coord, s.running, s.waiting);
    hide CoordValid, RunningValid, PumpFrom, Shrunk, Splits, Accepts;
    var taken := p.running[|s.running|..];
    SplitsFacts(s.waiting, p.kept, taken);
    assert p.running == s.running + taken;
    assert IdSet(p.running) == IdSet(s.running) + IdSet(taken);
    assert IdSet(p.kept) <= IdSet(s.waiting);
  }

  /** pump leaves no admissible request waiting. */
  lemma PumpLeavesNoneAdmissible(s: Sched)
    requires Valid(s)
    ensures var t := PumpAll(s); forall r :: r in t.waiting ==> !Accepts(t.cfg, t.coord, t.running, r)
  {
    PumpAllValid(s);
  }

  lemma RemoveRunning(cfg: Config, tables: map<int, Table>, running: seq<Request>, r: Request)
    requires ConfigOk(cfg) && RunningValid(cfg, tables, running) && r in running
    ensures RunningValid(cfg, tables - {r.seqId}, Without(running, r.seqId))
  {
    var rs, tables' := Without(running, r.seqId), tables - {r.seqId};
    hide Worst;
    forall x | x in rs ensures RunningOk(cfg, tables', x) { assert RunningOk(cfg, tables, x); }
    forall i | i in tables' ensures i in IdSet(rs) {
      assert i in IdSet(running);
      var x :| x in running && x.seqId == i;
      assert x in rs;
    }
  }

  /** Finishing returns the sequence's resources and keeps the invariant. */
  lemma FinishValid(s: Sched, r: Request)
    requires Valid(s) && r.seqId in IdSet(s.running)
    ensures Valid(Finish(s, r)) && r.seqId !in Finish(s, r).coord.tables
    ensures |Finish(s, r).running| == |s.running| - 1
  {
    var x :| x in s.running && x.seqId == r.seqId;
    ReleaseValid(s.coord, r.seqId);
    RemoveRunning(s.cfg, s.coord.tables, s.running, x);
    WithoutShrinks(s.running, x);
    hide CoordValid, RunningOk;
    assert IdSet(Without(s.running, r.seqId)) <= IdSet(s.running);
  }

  lemma AbortedValid(s: Sched, seqId: int)
    requires Valid(s)
    ensures Valid(Aborted(s, seqId))
    ensures seqId !in IdSet(Aborted(s, seqId).running) && seqId !in IdSet(Aborted(s, seqId).waiting)
  {
    match Lookup(s.running, seqId)
    case Some(r) => FinishValid(s, r);
    case None => assert IdSet(Without(s.waiting, seqId)) <= IdSet(s.waiting);
  }

  lemma MovedOk(cfg: Config, tables: map<int, Table>, r: Request)
    requires ConfigOk(cfg) && RunningOk(cfg, tables, r)
    ensures var r' := Moved(r, ActionFor(cfg, r));
      r'.seqId == r.seqId && (!Finishes(r', false) ==> RunningOk(cfg, tables, r'))
  {
  }

  lemma ReplaceRunning(cfg: Config, tables: map<int, Table>, running: seq<Request>, r: Request)
    requires ConfigOk(cfg) && RunningValid(cfg, tables, running) && RunningOk(cfg, tables, r) &&
      r.seqId in IdSet(running)
    ensures RunningValid(cfg, tables, Replace(running, r))
    ensures IdSet(Replace(running, r)) == IdSet(running)
  {
    var rs := Replace(running, r);
    hide RunningOk;
    forall x | x in rs ensures RunningOk(cfg, tables, x) {
      var i :| 0 <= i < |rs| && rs[i] == x;
      assert running[i] in running;
    }
    forall id | id in IdSet(running) ensures id in IdSet(rs) {
      var x :| x in running && x.seqId == id;
      var i :| 0 <= i < |running| && running[i] == x;
      assert rs[i] in rs;
    }
    forall id | id in IdSet(rs) ensures id in IdSet(running) {
      var x :| x in rs && x.seqId == id;
      var i :| 0 <= i < |rs| && rs[i] == x;
      assert running[i] in running;
    }
  }

  /** The action scheduled for a running request keeps the invariant, whether or not it ends it. */
  lemma AdvancedValid(s: Sched, r: Request, eos: bool)
    requires Valid(s) && r in s.running
    ensures r.seqId in IdSet(s.running)
    ensures Valid(Advanced(s, ActionFor(s.cfg, r), eos))
  {
    assert r.seqId in IdSet(s.running);
    var a := ActionFor(s.cfg, r);
    UniqueById(s.running, Lookup(s.running, r.seqId).value, r);
    MovedOk(s.cfg, s.coord.tables, r);
    var r' := Moved(r, a);
    if Finishes(r', eos) {
      FinishValid(s, r');
    } else {
      ReplaceRunning(s.cfg, s.coord.tables, s.running, r');
    }
  }

  /** The reserved blocks always cover the prompt tokens prefilled plus the tokens generated. */
  lemma ReservationCovers(s: Sched, r: Request)
    requires Valid(s) && r in s.running
    ensures r.seqId in s.coord.tables
    ensures r.position + r.generated <= |s.coord.tables[r.seqId].blocks| * s.cfg.blockSize
  {
    assert RunningOk(s.cfg, s.coord.tables, r);
    BlocksForIsCeiling(r.promptLen + r.maxNew, s.cfg.blockSize);
  }

  // ---------------------------------------------------------------------------
  // Progress
  // ---------------------------------------------------------------------------

  /** The request alone fits the empty system. */
  ghost predicate FitsAlone(s: Sched, r: Request)
    requires 1 <= s.cfg.blockSize
  {
    Worst(s.cfg, r) <= s.coord.kv.capacity && (r.useState ==> 1 <= s.coord.st.capacity)
  }

  lemma IdleAccepts(s: Sched, r: Request)
    requires Valid(s) && s.running == [] && FitsAlone(s, r)
    ensures Accepts(s.cfg, s.coord, s.running, r)
  {
    assert s.coord.tables.Keys == {};
    NoTablesAllFree(s.coord);
  }

  /** After a pump, an idle system has an empty queue. */
  lemma NoStall(s: Sched)
    requires Valid(s) && forall r :: r in PumpAll(s).waiting ==> FitsAlone(PumpAll(s), r)
    ensures PumpAll(s).running == [] ==> PumpAll(s).waiting == []
  {
    var t := PumpAll(s);
    PumpAllValid(s);
    PumpLeavesNoneAdmissible(s);
    hide Valid, PumpAll, Accepts, FitsAlone;
    if t.running == [] && t.waiting != [] {
      IdleAccepts(t, t.waiting[0]);
    }
  }

  /** Actions a request still needs: its remaining prefill chunks and its remaining tokens. */
  function Work(cfg: Config, r: Request): nat
    requires 1 <= cfg.chunkSize
  {
    (if r.position < r.promptLen then BlocksFor(r.promptLen - r.position, cfg.chunkSize) else 0)
    + (if r.generated < r.maxNew then r.maxNew - r.generated else 0)
  }

  function TotalWork(cfg: Config, rs: seq<Request>): nat
    requires 1 <= cfg.chunkSize
  {
    if rs == [] then 0 else Work(cfg, rs[0]) + TotalWork(cfg, rs[1..])
  }

  function Remaining(s: Sched): nat
    requires 1 <= s.cfg.chunkSize
  {
    TotalWork(s.cfg, s.waiting) + TotalWork(s.cfg, s.running)
  }

  lemma {:induction false} TotalWorkAppend(cfg: Config, a: seq<Request>, b: seq<Request>)
    requires 1 <= cfg.chunkSize
    ensures TotalWork(cfg, a + b) == TotalWork(cfg, a) + TotalWork(cfg, b)
  {
    if a == [] {
      assert a + b == b;
    } else {
      TotalWorkAppend(cfg, a[1..], b);
      assert (a + b)[1..] == a[1..] + b;
    }
  }

  lemma {:induction false} TotalWorkWithout(cfg: Config, rs: seq<Request>, r: Request)
    requires 1 <= cfg.chunkSize && DistinctIds(rs) && r in rs
    ensures TotalWork(cfg, rs) == TotalWork(cfg, Without(rs, r.seqId)) + Work(cfg, r)
  {
    if rs[0].seqId == r.seqId {
      UniqueById(rs, rs[0], r);
      WithoutAbsent(rs[1..], r.seqId);
    } else {
      TotalWorkWithout(cfg, rs[1..], r);
      var w := Without(rs[1..], r.seqId);
      assert ([rs[0]] + w)[1..] == w;
    }
  }

  lemma {:induction false} TotalWorkReplace(cfg: Config, rs: seq<Request>, r: Request, r': Request)
    requires 1 <= cfg.chunkSize && DistinctIds(rs) && r in rs && r'.seqId == r.seqId
    ensures TotalWork(cfg, Replace(rs, r')) + Work(cfg, r) == TotalWork(cfg, rs) + Work(cfg, r')
  {
    assert Replace(rs, r')[1..] == Replace(rs[1..], r');
    if rs[0].seqId == r.seqId {
      UniqueById(rs, rs[0], r);
      assert Replace(rs[1..], r') == rs[1..];
    } else {
      TotalWorkReplace(cfg, rs[1..], r, r');
    }
  }

  lemma {:induction false} TotalWorkSplits(cfg: Config, queue: seq<Request>, kept: seq<Request>, taken: seq<Request>)
    requires 1 <= cfg.chunkSize && Splits(queue, kept, taken)
    ensures TotalWork(cfg, queue) == TotalWork(cfg, kept) + TotalWork(cfg, taken)
    decreases |queue|
  {
    if queue != [] {
      if kept != [] && kept[0] == queue[0] && Splits(queue[1..], kept[1..], taken) {
        TotalWorkSplits(cfg, queue[1..], kept[1..], taken);
      } else {
        TotalWorkSplits(cfg, queue[1..], kept, taken[1..]);
      }
    }
  }

  lemma PumpKeepsWork(s: Sched)
    requires Valid(s)
    ensures Remaining(PumpAll(s)) == Remaining(s)
  {
    PumpAllValid(s);
    hide Valid, PumpFrom, Splits, TotalWork;
    var p := PumpFrom(s.cfg, s.coord, s.running, s.waiting);
    var taken := p.running[|s.running|..];
    assert p.running == s.running + taken;
    TotalWorkSplits(s.cfg, s.waiting, p.kept, taken);
    TotalWorkAppend(s.cfg, s.running, taken);
  }

  lemma ChunkDone(left: nat, chunk: nat)
    requires 0 < left && 1 <= chunk
    ensures BlocksFor(left, chunk) == 1 + (if chunk < left then BlocksFor(left - chunk, chunk) else 0)
  {
    if chunk < left {
      Modular.AddMultiple(left - chunk + chunk - 1, 1, chunk);
    } else {
      Modular.DivModUnique(left + chunk - 1, chunk, 1, left - 1);
    }
  }

  /** One action is one unit of a request's work. */
  lemma MovedWork(cfg: Config, tables: map<int, Table>, r: Request)
    requires ConfigOk(cfg) && RunningOk(cfg, tables, r) && r.promptLen + r.maxNew > 0
    ensures Work(cfg, Moved(r, ActionFor(cfg, r))) + 1 == Work(cfg, r)
  {
    if r.position < r.promptLen { ChunkDone(r.promptLen - r.position, cfg.chunkSize); }
  }

  /** Every executed action uses up at least one unit of the remaining work. */
  lemma AdvancedWork(s: Sched, r: Request, eos: bool)
    requires Valid(s) && r in s.running && r.promptLen + r.maxNew > 0
    ensures r.seqId in IdSet(s.running)
    ensures Remaining(Advanced(s, ActionFor(s.cfg, r), eos)) < Remaining(s)
  {
    assert r.seqId in IdSet(s.running);
    UniqueById(s.running, Lookup(s.running, r.seqId).value, r);
    MovedWork(s.cfg, s.coord.tables, r);
    MovedOk(s.cfg, s.coord.tables, r);
    var r' := Moved(r, ActionFor(s.cfg, r));
    TotalWorkReplace(s.cfg, s.running, r, r');
    TotalWorkWithout(s.cfg, s.running, r);
  }

  // ---------------------------------------------------------------------------
  // The scheduler object
  // ---------------------------------------------------------------------------

  class Scheduler {
    const cfg: Config
    const coord: HybridKVCoordinator
    var waiting: seq<Request>
    var running: seq<Request>
    var done: seq<Request>

    ghost function View(): Sched
      reads this, coord, coord.kv, coord.state
    {
      Sched(cfg, coord.View(), waiting, running, done)
    }

    constructor (kvCapacity: nat, stateCapacity: nat, blockSize: nat, chunkSize: nat, maxConcurrency: nat)
      requires 1 <= blockSize && 1 <= chunkSize && 1 <= maxConcurrency
      ensures View() == Initial(Config(blockSize, chunkSize, maxConcurrency), kvCapacity, stateCapacity) &&
        Valid(View())
      ensures fresh(coord) && fresh(coord.kv) && fresh(coord.state)
    {
      cfg := Config(blockSize, chunkSize, maxConcurrency);
      coord := new HybridKVCoordinator(kvCapacity, stateCapacity);
      waiting, running, done := [], [], [];
    }

    method Add(seqId: int, promptLen: nat, maxNew: nat, useState: bool) returns (r: Result<(), Error>)
      requires Valid(View())
      modifies this`waiting
      ensures Valid(View())
      ensures seqId in IdSet(old(waiting)) || seqId in IdSet(running) ==>
        r == Err(AlreadyRegistered) && View() == old(View())
      ensures seqId !in IdSet(old(waiting)) && seqId !in IdSet(running) ==>
        r == Ok(()) && View() == Added(old(View()), seqId, promptLen, maxNew, useState)
    {
      if seqId in IdSet(waiting) || seqId in IdSet(running) { return Err(AlreadyRegistered); }
      AddedValid(View(), seqId, promptLen, maxNew, useState);
      waiting := waiting + [Request(seqId, promptLen, maxNew, useState, 0, 0, false)];
      r := Ok(());
    }

    method AcceptsNow(r: Request) returns (ok: bool)
      requires 1 <= cfg.blockSize
      ensures ok == Accepts(cfg, coord.View(), running, r)
    {
      if |running| >= cfg.maxConcurrency { return false; }
      if r.useState && coord.state.free == {} { return false; }
      ok := |coord.kv.free| >= BlocksFor(r.promptLen + r.maxNew, cfg.blockSize);
    }

    /** Reserve the worst case; after AcceptsNow this never runs out of capacity. */
    method Admit(r: Request) returns (admitted: bool)
      requires ConfigOk(cfg) && CoordValid(coord.View()) && r.seqId !in coord.View().tables
      modifies this`running, coord, coord.kv, coord.state
      ensures old(Accepts(cfg, coord.View(), running, r)) ==> admitted
      ensures admitted ==> CanHost(old(coord.View()), Worst(cfg, r), r.useState) && running == old(running) + [r]
      ensures admitted ==> coord.View() == Register(old(coord.View()), r.seqId, Worst(cfg, r), r.useState)
      ensures !admitted ==> coord.View() == old(coord.View()) && running == old(running)
    {
      var worst := BlocksFor(r.promptLen + r.maxNew, cfg.blockSize);
      BlocksForBlocks(worst, cfg.blockSize);
      hide CoordValid;
      var t := coord.NewSequence(r.seqId, worst * cfg.blockSize, cfg.blockSize, r.useState);
      if t.Err? { return false; }
      running := running + [r];
      admitted := true;
    }

    /** Admit what fits, in queue order; what does not fit stays, in queue order. */
    method Pump() returns (admitted: seq<int>)
      requires Valid(View())
      modifies this`waiting, this`running, coord, coord.kv, coord.state
      ensures View() == PumpAll(old(View())) && Valid(View())
      ensures admitted == PumpFrom(cfg, old(coord.View()), old(running), old(waiting)).admitted
    {
      PumpAllValid(View());
      hide Valid, PumpReady, Register, PumpFrom, Accepts, CoordValid, Worst, Joined, PumpOk;
      ghost var all := PumpFrom(cfg, coord.View(), running, waiting);
      ValidIsPumpReady(View());
      admitted := [];
      var skipped: seq<Request> := [];
      JoinNone(all);
      while waiting != []
        invariant PumpReady(cfg, coord.View(), running, waiting)
        invariant done == old(done)
        invariant Joined(admitted, skipped, PumpFrom(cfg, coord.View(), running, waiting)) == all
        decreases |waiting|
      {
        var req := waiting[0];
        PumpStep(cfg, coord.View(), running, waiting);
        PumpUnfold(cfg, coord.View(), running, waiting);
        var ok := AcceptsNow(req);
        if ok {
          var _ := Admit(req);
          waiting := waiting[1..];
          JoinTaken(admitted, req.seqId, skipped, PumpFrom(cfg, coord.View(), running, waiting));
          admitted := admitted + [req.seqId];
        } else {
          waiting := waiting[1..];
          JoinKept(admitted, skipped, req, PumpFrom(cfg, coord.View(), running, waiting));
          skipped := skipped + [req];
        }
      }
      PumpDone(cfg, coord.View(), running);
      JoinDone(admitted, skipped, coord.View(), running);
      waiting := skipped;
    }

    method Schedule() returns (actions: seq<Action>)
      ensures actions == ActionsFor(cfg, running)
    {
      actions := [];
      for i := 0 to |running|
        invariant actions + ActionsFor(cfg, running[i..]) == ActionsFor(cfg, running)
      {
        var req := running[i];
        assert running[i..][1..] == running[i + 1..];
        if !req.finished {
          if req.position < req.promptLen {
            var left := req.promptLen - req.position;
            var n := if cfg.chunkSize < left then cfg.chunkSize else left;
            actions := actions + [Action(req.seqId, Prefill, req.position, req.position + n, n)];
          } else {
            actions := actions + [Action(req.seqId, Decode, 0, 0, 1)];
          }
        }
      }
    }

    /** pump, then schedule. */
    method Step() returns (actions: seq<Action>)
      requires Valid(View())
      modifies this`waiting, this`running, coord, coord.kv, coord.state
      ensures View() == PumpAll(old(View())) && Valid(View())
      ensures actions == ActionsFor(cfg, running)
    {
      var _ := Pump();
      actions := Schedule();
    }

    method Advance(a: Action, eos: bool)
      requires CoordValid(coord.View()) && a.seqId in IdSet(running)
      modifies this`running, this`done, coord, coord.kv, coord.state
      ensures View() == Advanced(old(View()), a, eos)
    {
      hide CoordValid, Without, Release, Finish;
      var req := Lookup(running, a.seqId).value;
      if a.phase == Prefill {
        req := req.(position := if req.position + a.length < req.promptLen then req.position + a.length
            else req.promptLen);
      } else {
        req := req.(generated := req.generated + (if a.length > 0 then a.length else 1), position := req.promptLen);
      }
      if eos || (req.position >= req.promptLen && req.generated >= req.maxNew) {
        FinishNow(req);
      } else {
        running := Replace(running, req);
      }
    }

    method FinishNow(req: Request)
      requires CoordValid(coord.View())
      modifies this`running, this`done, coord, coord.kv, coord.state
      ensures View() == Finish(old(View()), req)
    {
      var _ := coord.FreeSequence(req.seqId);
      running := Without(running, req.seqId);
      done := done + [req.(finished := true)];
    }

    method Abort(seqId: int) returns (found: bool)
      requires Valid(View())
      modifies this, coord, coord.kv, coord.state
      ensures View() == Aborted(old(View()), seqId) && Valid(View())
      ensures found <==> seqId in IdSet(old(running)) || seqId in IdSet(old(waiting))
    {
      AbortedValid(View(), seqId);
      var live := Lookup(running, seqId);
      if live.Some? {
        FinishNow(live.value);
        return true;
      }
      var queued := Lookup(waiting, seqId);
      if queued.Some? {
        waiting := Without(waiting, seqId);
        done := done + [queued.value.(finished := true)];
        return true;
      }
      found := false;
    }
  }

  ghost predicate PumpReady(cfg: Config, coord: Coord, running: seq<Request>, queue: seq<Request>) {
    && ConfigOk(cfg) && CoordValid(coord) && RunningValid(cfg, coord.tables, running)
    && DistinctIds(queue) && IdSet(queue) !! IdSet(running) && (forall r :: r in queue ==> WaitingOk(r))
  }

  lemma ValidIsPumpReady(s: Sched)
    requires Valid(s)
    ensures PumpReady(s.cfg, s.coord, s.running, s.waiting)
  {
  }

  lemma PumpStep(cfg: Config, coord: Coord, running: seq<Request>, queue: seq<Request>)
    requires PumpReady(cfg, coord, running, queue) && queue != []
    ensures ConfigOk(cfg) && CoordValid(coord)
    ensures var r := queue[0];
      && r.seqId !in coord.tables
      && (Accepts(cfg, coord, running, r) ==>
            CanHost(coord, Worst(cfg, r), r.useState) &&
            PumpReady(cfg, Register(coord, r.seqId, Worst(cfg, r), r.useState), running + [r], queue[1..]))
      && (!Accepts(cfg, coord, running, r) ==> PumpReady(cfg, coord, running, queue[1..]))
  {
    hide CoordValid, Register, Worst, Accepts;
    var r := queue[0];
    HeadId(queue);
    assert IdSet(running + [r]) == IdSet(running) + {r.seqId};
    if Accepts(cfg, coord, running, r) { AdmitRunning(cfg, coord, running, r); }
  }

  lemma PumpDone(cfg: Config, coord: Coord, running: seq<Request>)
    requires 1 <= cfg.blockSize
    ensures PumpFrom(cfg, coord, running, []) == Pumped(coord, running, [], [])
  {
  }

  /** The pump's result when `admitted` and `skipped` came before. */
  ghost function Joined(admitted: seq<int>, skipped: seq<Request>, p: Pumped): Pumped {
    Pumped(p.coord, p.running, skipped + p.kept, admitted + p.admitted)
  }

  lemma PumpUnfold(cfg: Config, coord: Coord, running: seq<Request>, queue: seq<Request>)
    requires 1 <= cfg.blockSize && queue != []
    ensures var r := queue[0];
      PumpFrom(cfg, coord, running, queue) ==
        if Accepts(cfg, coord, running, r) then
          Joined([r.seqId], [],
                 PumpFrom(cfg, Register(coord, r.seqId, Worst(cfg, r), r.useState), running + [r], queue[1..]))
        else
          Joined([], [r], PumpFrom(cfg, coord, running, queue[1..]))
  {
  }

  lemma JoinNone(p: Pumped)
    ensures Joined([], [], p) == p
  {
    assert [] + p.kept == p.kept && [] + p.admitted == p.admitted;
  }

  lemma JoinDone(admitted: seq<int>, skipped: seq<Request>, coord: Coord, running: seq<Request>)
    ensures Joined(admitted, skipped, Pumped(coord, running, [], [])) == Pumped(coord, running, skipped, admitted)
  {
    assert skipped + [] == skipped && admitted + [] == admitted;
  }

  lemma JoinTaken(admitted: seq<int>, id: int, skipped: seq<Request>, p: Pumped)
    ensures Joined(admitted, skipped, Joined([id], [], p)) == Joined(admitted + [id], skipped, p)
  {
    assert admitted + ([id] + p.admitted) == (admitted + [id]) + p.admitted;
    assert [] + p.kept == p.kept;
  }

  lemma JoinKept(admitted: seq<int>, skipped: seq<Request>, r: Request, p: Pumped)
    ensures Joined(admitted, skipped, Joined([], [r], p)) == Joined(admitted, skipped + [r], p)
  {
    assert skipped + ([r] + p.kept) == (skipped + [r]) + p.kept;
    assert [] + p.admitted == p.admitted;
  }
}
