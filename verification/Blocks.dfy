/** Paged KV blocks and recurrent-state slots: who owns which id. A free heap is only
    ever asked for its smallest id, so it is the set of its ids. */
module Blocks {
  // Each class is proved against a value-level transition on `Pool` or `Coord`; the
  // invariant over every reachable state is proved about those transitions.
  import opened Prelude
  import Modular

  datatype Error = OutOfCapacity | AlreadyRegistered | NotRegistered | NotOwned

  // ---------------------------------------------------------------------------
  // One pool of ids
  // ---------------------------------------------------------------------------

  datatype Pool = Pool(capacity: nat, free: set<nat>, owner: map<nat, int>)

  /** Every id below the capacity is free or owned, and never both. */
  ghost predicate PoolValid(p: Pool) {
    p.free !! p.owner.Keys && forall i: nat :: i < p.capacity <==> i in p.free || i in p.owner
  }

  function Below(n: nat): (ids: set<nat>)
    ensures |ids| == n
    ensures forall i: nat :: i in ids <==> i < n
  {
    if n == 0 then {} else Below(n - 1) + {n - 1}
  }

  function FullPool(capacity: nat): (p: Pool)
    ensures PoolValid(p)
  {
    Pool(capacity, Below(capacity), map[])
  }

  ghost predicate IsMin(m: nat, s: set<nat>) { m in s && forall i :: i in s ==> m <= i }

  lemma {:induction false} MinExists(s: set<nat>)
    requires s != {}
    ensures exists m :: IsMin(m, s)
    decreases s
  {
    var x :| x in s;
    if s == {x} {
      assert IsMin(x, s);
    } else {
      MinExists(s - {x});
      var m :| IsMin(m, s - {x});
      assert forall i :: i in s ==> i == x || i in s - {x};
      if x < m { assert IsMin(x, s); } else { assert IsMin(m, s); }
    }
  }

  ghost function Min(s: set<nat>): (m: nat)
    requires s != {}
    ensures IsMin(m, s)
  {
    MinExists(s);
    var m :| IsMin(m, s);
    m
  }

  /** The n smallest ids, in increasing order. */
  ghost function Lowest(s: set<nat>, n: nat): (ids: seq<nat>)
    requires n <= |s|
    ensures |ids| == n
  {
    if n == 0 then [] else [Min(s)] + Lowest(s - {Min(s)}, n - 1)
  }

  function Elements<T>(xs: seq<T>): set<T> { set x | x in xs }

  ghost predicate Distinct<T>(xs: seq<T>) { forall i, j :: 0 <= i < j < |xs| ==> xs[i] != xs[j] }

  ghost predicate Increasing(xs: seq<nat>) { forall i, j :: 0 <= i < j < |xs| ==> xs[i] < xs[j] }

  /** What stays free after taking the n smallest ids. */
  ghost function Rest(s: set<nat>, n: nat): set<nat>
    requires n <= |s|
  {
    if n == 0 then s else Rest(s - {Min(s)}, n - 1)
  }

  lemma LowestUnfold(s: set<nat>, n: nat)
    requires 0 < n <= |s|
    ensures Lowest(s, n) == [Min(s)] + Lowest(s - {Min(s)}, n - 1) && Rest(s, n) == Rest(s - {Min(s)}, n - 1)
  {
  }

  lemma NoneTaken(s: set<nat>)
    ensures Lowest(s, 0) == [] && Rest(s, 0) == s
  {
  }

  lemma {:induction false} RestIds(s: set<nat>, n: nat)
    requires n <= |s|
    ensures Rest(s, n) == s - Elements(Lowest(s, n))
    decreases n
  {
    if n > 0 {
      RestIds(s - {Min(s)}, n - 1);
      hide Lowest, Rest;
      LowestUnfold(s, n);
      var rest := Lowest(s - {Min(s)}, n - 1);
      assert Elements([Min(s)] + rest) == {Min(s)} + Elements(rest);
    }
  }

  /** Allocation hands out free ids, each once, and none of the kept free ids is smaller. */
  lemma {:induction false} LowestIds(s: set<nat>, n: nat)
    requires n <= |s|
    ensures Increasing(Lowest(s, n))
    ensures Elements(Lowest(s, n)) <= s
    ensures forall i, j :: i in Lowest(s, n) && j in s && j !in Lowest(s, n) ==> i < j
    decreases n
  {
    if n == 0 {
      assert Lowest(s, n) == [];
    } else {
      var m, rest := Min(s), Lowest(s - {Min(s)}, n - 1);
      LowestIds(s - {m}, n - 1);
      hide Lowest;
      LowestUnfold(s, n);
      assert forall i :: i in rest ==> i in Elements(rest);
      forall i, j | i in Lowest(s, n) && j in s && j !in Lowest(s, n) ensures i < j {
        assert j in s - {m} && j !in rest;
      }
    }
  }

  function Assign(owner: map<nat, int>, ids: seq<nat>, seqId: int): map<nat, int> {
    if ids == [] then owner else Assign(owner, ids[..|ids| - 1], seqId)[ids[|ids| - 1] := seqId]
  }

  lemma {:induction false} AssignAt(owner: map<nat, int>, ids: seq<nat>, seqId: int)
    ensures forall i :: i in Assign(owner, ids, seqId) <==> i in owner || i in ids
    ensures forall i :: i in Assign(owner, ids, seqId) ==>
      Assign(owner, ids, seqId)[i] == if i in ids then seqId else owner[i]
  {
    if ids != [] {
      AssignAt(owner, ids[..|ids| - 1], seqId);
      assert forall i :: i in ids <==> i in ids[..|ids| - 1] || i == ids[|ids| - 1];
    }
  }

  ghost function Take(p: Pool, seqId: int, n: nat): Pool
    requires n <= |p.free|
  {
    Pool(p.capacity, Rest(p.free, n), Assign(p.owner, Lowest(p.free, n), seqId))
  }

  function Give(p: Pool, ids: set<nat>): Pool {
    Pool(p.capacity, p.free + ids, p.owner - ids)
  }

  /** q is p after the free ids `ids` were given to seqId. */
  ghost predicate Took(p: Pool, q: Pool, ids: seq<nat>, seqId: int) {
    && Distinct(ids) && q.capacity == p.capacity
    && (forall i :: i in ids ==> i in p.free && i in q.owner && q.owner[i] == seqId)
    && (forall i :: i in p.owner ==> i in q.owner && q.owner[i] == p.owner[i])
    && (forall i :: i in q.owner ==> i in ids || i in p.owner)
    && q.free == p.free - Elements(ids)
  }

  lemma TakeIds(p: Pool, seqId: int, n: nat)
    requires PoolValid(p) && n <= |p.free|
    ensures Took(p, Take(p, seqId, n), Lowest(p.free, n), seqId)
  {
    hide Lowest, Rest, Assign;
    LowestIds(p.free, n);
    RestIds(p.free, n);
    AssignAt(p.owner, Lowest(p.free, n), seqId);
    var ids := Lowest(p.free, n);
    assert forall i :: i in ids <==> i in Elements(ids);
  }

  lemma NothingTaken(p: Pool, seqId: int)
    ensures Lowest(p.free, 0) == [] && Take(p, seqId, 0) == p
  {
    assert Assign(p.owner, [], seqId) == p.owner;
  }

  lemma TakeOne(p: Pool, seqId: int)
    requires p.free != {}
    ensures Take(p, seqId, 1) == Pool(p.capacity, p.free - {Min(p.free)}, p.owner[Min(p.free) := seqId])
  {
    LowestOne(p.free);
    NoneTaken(p.free - {Min(p.free)});
    assert Assign(p.owner, [], seqId) == p.owner;
  }

  lemma TakeValid(p: Pool, seqId: int, n: nat)
    requires PoolValid(p) && n <= |p.free|
    ensures PoolValid(Take(p, seqId, n))
    ensures |Take(p, seqId, n).free| == |p.free| - n
  {
    TakeIds(p, seqId, n);
    hide Take;
    var ids := Lowest(p.free, n);
    DistinctCount(ids);
    assert Elements(ids) <= p.free;
  }

  lemma GiveUndoesTake(p: Pool, seqId: int, n: nat)
    requires PoolValid(p) && n <= |p.free|
    ensures Give(Take(p, seqId, n), Elements(Lowest(p.free, n))) == p
  {
    TakeIds(p, seqId, n);
    hide Take;
    var q := Give(Take(p, seqId, n), Elements(Lowest(p.free, n)));
    assert q.free == p.free;
    assert q.owner == p.owner;
  }

  lemma {:induction false} DistinctCount<T>(xs: seq<T>)
    requires Distinct(xs)
    ensures |Elements(xs)| == |xs|
  {
    if xs != [] {
      var rest := xs[1..];
      DistinctCount(rest);
      assert Elements(xs) == {xs[0]} + Elements(rest);
    }
  }

  class KVBlockAllocator {
    const capacity: nat
    var free: set<nat>
    var owner: map<nat, int>

    ghost function View(): Pool reads this { Pool(capacity, free, owner) }

    constructor (capacity: nat)
      ensures View() == FullPool(capacity)
    {
      this.capacity := capacity;
      free := Below(capacity);
      owner := map[];
    }

    method Allocate(seqId: int, count: nat) returns (r: Result<seq<nat>, Error>)
      modifies this
      ensures count > |old(free)| ==> r == Err(OutOfCapacity) && View() == old(View())
      ensures count <= |old(free)| ==> r == Ok(Lowest(old(free), count)) && View() == Take(old(View()), seqId, count)
    {
      if count > |free| { return Err(OutOfCapacity); }
      var ids := PopLowest(count);
      for k := 0 to |ids|
        invariant free == Rest(old(free), count)
        invariant owner == Assign(old(owner), ids[..k], seqId)
      {
        owner := owner[ids[k] := seqId];
        assert ids[..k + 1][..k] == ids[..k];
      }
      assert ids[..|ids|] == ids;
      r := Ok(ids);
    }

    /** `count` pops of the free heap. */
    method PopLowest(count: nat) returns (ids: seq<nat>)
      requires count <= |free|
      modifies this`free
      ensures ids == Lowest(old(free), count) && free == Rest(old(free), count)
    {
      hide Lowest, Rest;
      ids := [];
      for k := 0 to count
        invariant count - k <= |free|
        invariant ids + Lowest(free, count - k) == Lowest(old(free), count)
        invariant Rest(free, count - k) == Rest(old(free), count)
      {
        MinExists(free);
        var b :| b in free && forall i :: i in free ==> b <= i;
        assert b == Min(free);
        LowestUnfold(free, count - k);
        assert ids + ([b] + Lowest(free - {b}, count - k - 1)) == ids + [b] + Lowest(free - {b}, count - k - 1);
        ids := ids + [b];
        free := free - {b};
      }
      NoneTaken(free);
    }

    /** Validate the whole batch first, then give it back. */
    method Free(seqId: int, ids: seq<nat>) returns (r: Result<(), Error>)
      modifies this
      ensures Distinct(ids) && (forall b :: b in ids ==> b in old(owner) && old(owner)[b] == seqId)
        ==> r == Ok(()) && View() == Give(old(View()), Elements(ids))
      ensures !(Distinct(ids) && (forall b :: b in ids ==> b in old(owner) && old(owner)[b] == seqId))
        ==> r == Err(NotOwned) && View() == old(View())
    {
      var seen: set<nat> := {};
      for k := 0 to |ids|
        invariant seen == Elements(ids[..k]) && Distinct(ids[..k])
        invariant forall b :: b in ids[..k] ==> b in owner && owner[b] == seqId
        invariant View() == old(View())
      {
        var b := ids[k];
        if b in seen {
          assert exists i :: 0 <= i < k && ids[i] == b;
          return Err(NotOwned);
        }
        seen := seen + {b};
        if b !in owner || owner[b] != seqId {
          assert b in ids;
          return Err(NotOwned);
        }
      }
      assert ids[..|ids|] == ids;
      for k := 0 to |ids|
        invariant owner == old(owner) - Elements(ids[..k])
        invariant free == old(free) + Elements(ids[..k])
      {
        owner := owner - {ids[k]};
        free := free + {ids[k]};
        assert Elements(ids[..k + 1]) == Elements(ids[..k]) + {ids[k]};
      }
      r := Ok(());
    }
  }

  class StateAllocator {
    const capacity: nat
    var free: set<nat>
    var owner: map<nat, int>

    ghost function View(): Pool reads this { Pool(capacity, free, owner) }

    constructor (capacity: nat)
      ensures View() == FullPool(capacity)
    {
      this.capacity := capacity;
      free := Below(capacity);
      owner := map[];
    }

    method Allocate(seqId: int) returns (r: Result<nat, Error>)
      modifies this
      ensures old(free) == {} ==> r == Err(OutOfCapacity) && View() == old(View())
      ensures old(free) != {} ==> r == Ok(Min(old(free))) && View() == Take(old(View()), seqId, 1)
    {
      if free == {} { return Err(OutOfCapacity); }
      MinExists(free);
      var slot :| slot in free && forall i :: i in free ==> slot <= i;
      assert slot == Min(free);
      TakeOne(View(), seqId);
      free := free - {slot};
      owner := owner[slot := seqId];
      r := Ok(slot);
    }

    method Free(seqId: int, slot: Option<nat>) returns (r: Result<(), Error>)
      modifies this
      ensures slot == None ==> r == Ok(()) && View() == old(View())
      ensures slot.Some? && slot.value in old(owner) && old(owner)[slot.value] == seqId
        ==> r == Ok(()) && View() == Give(old(View()), {slot.value})
      ensures slot.Some? && !(slot.value in old(owner) && old(owner)[slot.value] == seqId)
        ==> r == Err(NotOwned) && View() == old(View())
    {
      if slot == None { return Ok(()); }
      if slot.value !in owner || owner[slot.value] != seqId { return Err(NotOwned); }
      owner := owner - {slot.value};
      free := free + {slot.value};
      r := Ok(());
    }
  }

  // ---------------------------------------------------------------------------
  // The coordinator
  // ---------------------------------------------------------------------------

  datatype Table = Table(blocks: seq<nat>, slot: Option<nat>)

  datatype Coord = Coord(kv: Pool, st: Pool, tables: map<int, Table>)

  function BlocksFor(tokens: nat, blockSize: nat): nat
    requires 1 <= blockSize
  {
    if tokens > 0 then (tokens + blockSize - 1) / blockSize else 0
  }

  /** The blocks hold the tokens, and one block less would not. */
  lemma BlocksForIsCeiling(tokens: nat, blockSize: nat)
    requires 1 <= blockSize
    ensures tokens <= BlocksFor(tokens, blockSize) * blockSize
    ensures tokens > 0 ==> (BlocksFor(tokens, blockSize) - 1) * blockSize < tokens
  {
    if tokens > 0 {
      var a := tokens + blockSize - 1;
      assert a == (a / blockSize) * blockSize + a % blockSize;
      assert (a / blockSize - 1) * blockSize == (a / blockSize) * blockSize - blockSize;
    }
  }

  lemma BlocksForBlocks(n: nat, blockSize: nat)
    requires 1 <= blockSize
    ensures BlocksFor(n * blockSize, blockSize) == n
  {
    if n > 0 {
      assert n * blockSize >= 1 by { Modular.ScaleUp(n, blockSize); }
      Modular.DivModUnique(n * blockSize + blockSize - 1, blockSize, n, blockSize - 1);
    } else {
      assert n * blockSize == 0;
    }
  }

  /** The tables and the two owner maps say the same thing. */
  ghost predicate CoordValid(c: Coord) {
    PoolValid(c.kv) && PoolValid(c.st) && KvAgrees(c.kv, c.tables) && StateAgrees(c.st, c.tables)
  }

  ghost predicate KvAgrees(kv: Pool, tables: map<int, Table>) {
    && (forall s :: s in tables ==> Distinct(tables[s].blocks))
    && (forall s, b :: s in tables && b in tables[s].blocks ==> b in kv.owner && kv.owner[b] == s)
    && (forall b :: b in kv.owner ==> kv.owner[b] in tables && b in tables[kv.owner[b]].blocks)
  }

  ghost predicate StateAgrees(st: Pool, tables: map<int, Table>) {
    && (forall s :: s in tables && tables[s].slot.Some? ==>
        tables[s].slot.value in st.owner && st.owner[tables[s].slot.value] == s)
    && (forall i :: i in st.owner ==> st.owner[i] in tables && tables[st.owner[i]].slot == Some(i))
  }

  function EmptyCoord(kvCapacity: nat, stateCapacity: nat): (c: Coord)
    ensures CoordValid(c)
  {
    Coord(FullPool(kvCapacity), FullPool(stateCapacity), map[])
  }

  ghost predicate CanHost(c: Coord, blocks: nat, useState: bool) {
    blocks <= |c.kv.free| && (useState ==> c.st.free != {})
  }

  ghost function Register(c: Coord, s: int, blocks: nat, useState: bool): Coord
    requires CanHost(c, blocks, useState)
  {
    Coord(Take(c.kv, s, blocks), if useState then Take(c.st, s, 1) else c.st,
          c.tables[s := Table(Lowest(c.kv.free, blocks), if useState then Some(Min(c.st.free)) else None)])
  }

  function Release(c: Coord, s: int): Coord
    requires s in c.tables
  {
    var t := c.tables[s];
    Coord(Give(c.kv, Elements(t.blocks)), if t.slot.Some? then Give(c.st, {t.slot.value}) else c.st, c.tables - {s})
  }

  lemma LowestOne(s: set<nat>)
    requires s != {}
    ensures Lowest(s, 1) == [Min(s)]
  {
    assert Lowest(s - {Min(s)}, 0) == [];
  }

  lemma RegisterKv(kv: Pool, kv': Pool, ids: seq<nat>, tables: map<int, Table>, s: int, slot: Option<nat>)
    requires PoolValid(kv) && KvAgrees(kv, tables) && s !in tables && Took(kv, kv', ids, s)
    ensures KvAgrees(kv', tables[s := Table(ids, slot)])
  {
    var tables' := tables[s := Table(ids, slot)];
    forall x, b | x in tables' && b in tables'[x].blocks ensures b in kv'.owner && kv'.owner[b] == x {
      if x != s { assert b in kv.owner; }
    }
    forall b | b in kv'.owner ensures kv'.owner[b] in tables' && b in tables'[kv'.owner[b]].blocks {
      if b !in ids { assert b in kv.owner; }
    }
  }

  lemma RegisterState(st: Pool, tables: map<int, Table>, s: int, blocks: seq<nat>)
    requires PoolValid(st) && StateAgrees(st, tables) && s !in tables && st.free != {}
    ensures StateAgrees(Take(st, s, 1), tables[s := Table(blocks, Some(Min(st.free)))])
  {
    LowestOne(st.free);
    TakeIds(st, s, 1);
    hide Take, Lowest;
  }

  lemma RegisterValid(c: Coord, s: int, blocks: nat, useState: bool)
    requires CoordValid(c) && s !in c.tables && CanHost(c, blocks, useState)
    ensures CoordValid(Register(c, s, blocks, useState))
  {
    TakeValid(c.kv, s, blocks);
    TakeIds(c.kv, s, blocks);
    RegisterKv(c.kv, Take(c.kv, s, blocks), Lowest(c.kv.free, blocks), c.tables, s, if useState
        then Some(Min(c.st.free)) else None);
    if useState {
      TakeValid(c.st, s, 1);
      RegisterState(c.st, c.tables, s, Lowest(c.kv.free, blocks));
    }
    hide Take, Lowest, PoolValid, KvAgrees;
  }

  lemma ReleaseKv(kv: Pool, tables: map<int, Table>, s: int)
    requires PoolValid(kv) && KvAgrees(kv, tables) && s in tables
    ensures KvAgrees(Give(kv, Elements(tables[s].blocks)), tables - {s})
    ensures PoolValid(Give(kv, Elements(tables[s].blocks)))
  {
  }

  lemma ReleaseState(st: Pool, tables: map<int, Table>, s: int)
    requires PoolValid(st) && StateAgrees(st, tables) && s in tables
    ensures tables[s].slot.Some? ==>
      StateAgrees(Give(st, {tables[s].slot.value}), tables - {s}) && PoolValid(Give(st, {tables[s].slot.value}))
    ensures tables[s].slot == None ==> StateAgrees(st, tables - {s})
  {
  }

  lemma ReleaseValid(c: Coord, s: int)
    requires CoordValid(c) && s in c.tables
    ensures CoordValid(Release(c, s))
  {
    ReleaseKv(c.kv, c.tables, s);
    ReleaseState(c.st, c.tables, s);
  }

  /** Releasing a sequence undoes registering it: same free ids, same owners, same tables. */
  lemma ReleaseUndoesRegister(c: Coord, s: int, blocks: nat, useState: bool)
    requires CoordValid(c) && s !in c.tables && CanHost(c, blocks, useState)
    ensures Release(Register(c, s, blocks, useState), s) == c
  {
    GiveUndoesTake(c.kv, s, blocks);
    if useState { GiveBackSlot(c.st, s); }
    hide Take, Lowest, Give, CoordValid, Elements;
    assert c.tables[s := Register(c, s, blocks, useState).tables[s]] - {s} == c.tables;
  }

  lemma GiveBackSlot(p: Pool, s: int)
    requires PoolValid(p) && p.free != {}
    ensures Give(Take(p, s, 1), {Min(p.free)}) == p
  {
    GiveUndoesTake(p, s, 1);
    hide Take, Lowest, Give;
    LowestOne(p.free);
    assert Elements([Min(p.free)]) == {Min(p.free)};
  }

  /** With no sequence registered, everything is free. */
  lemma NoTablesAllFree(c: Coord)
    requires CoordValid(c) && c.tables == map[]
    ensures |c.kv.free| == c.kv.capacity && |c.st.free| == c.st.capacity
  {
    assert c.kv.free == Below(c.kv.capacity);
    assert c.st.free == Below(c.st.capacity);
  }

  class HybridKVCoordinator {
    const kv: KVBlockAllocator
    const state: StateAllocator
    var tables: map<int, Table>

    ghost function View(): Coord
      reads this, kv, state
    {
      Coord(kv.View(), state.View(), tables)
    }

    constructor (kvCapacity: nat, stateCapacity: nat)
      ensures View() == EmptyCoord(kvCapacity, stateCapacity)
      ensures fresh(kv) && fresh(state)
    {
      kv := new KVBlockAllocator(kvCapacity);
      state := new StateAllocator(stateCapacity);
      tables := map[];
    }

    /** Register a sequence, or fail and change nothing. */
    method NewSequence(seqId: int, tokens: nat, blockSize: nat, useState: bool) returns (r: Result<Table, Error>)
      requires CoordValid(View()) && 1 <= blockSize
      modifies this, kv, state
      ensures r.Ok? <==> seqId !in old(tables) && CanHost(old(View()), BlocksFor(tokens, blockSize), useState)
      ensures r.Ok? ==>
        View() == Register(old(View()), seqId, BlocksFor(tokens, blockSize), useState) && r.value == tables[seqId]
      ensures r.Err? ==> View() == old(View())
      ensures r.Err? ==> r.error == if seqId in old(tables) then AlreadyRegistered else OutOfCapacity
    {
      if seqId in tables { return Err(AlreadyRegistered); }
      hide Take, Lowest, Give, Elements, BlocksFor, KvAgrees, StateAgrees;
      var kvBlocks := BlocksFor(tokens, blockSize);
      ghost var pool := kv.View();
      var blocks: seq<nat> := [];
      if kvBlocks > 0 {
        var a := kv.Allocate(seqId, kvBlocks);
        if a.Err? { return Err(a.error); }
        blocks := a.value;
        TakeIds(pool, seqId, kvBlocks);
      } else {
        NothingTaken(pool, seqId);
      }
      assert kv.View() == Take(pool, seqId, kvBlocks) && blocks == Lowest(pool.free, kvBlocks);
      var slot: Option<nat> := None;
      if useState {
        var a := state.Allocate(seqId);
        if a.Err? {
          GiveUndoesTake(pool, seqId, kvBlocks);
          TakeIds(pool, seqId, kvBlocks);
          if blocks != [] {
            var _ := kv.Free(seqId, blocks);
          }
          return Err(a.error);
        }
        slot := Some(a.value);
      }
      tables := tables[seqId := Table(blocks, slot)];
      r := Ok(tables[seqId]);
    }

    method FreeSequence(seqId: int) returns (r: Result<(), Error>)
      requires CoordValid(View())
      modifies this, kv, state
      ensures r == Ok(())
      ensures View() == if seqId in old(tables) then Release(old(View()), seqId) else old(View())
    {
      if seqId !in tables { return Ok(()); }
      var table := tables[seqId];
      r := kv.Free(seqId, table.blocks);
      r := state.Free(seqId, table.slot);
      tables := tables - {seqId};
    }
  }
}
